/** The topic modal of the forum page: a form with a title, a content and a
    comma-separated tag field, which creates a topic in the viewed forum or
    updates the topic being edited through the forum store. In edit mode the
    form is prefilled with the topic, its tags joined by ", ". */
module TopicModal {
  import opened Wrappers
  import opened Text
  import opened Lists
  import opened Js
  import ForumStore

  datatype Mode = CreateMode | EditMode

  // ---------------------------------------------------------------- tags

  /** The tags submitted for the tag field: the comma-separated parts, each
      trimmed, or none for an empty or absent field. */
  function TagsOf(field: Option<string>): (tags: seq<string>)
    ensures field.None? || field.value == "" ==> tags == []
    ensures field.Some? && field.value != "" ==> |tags| == |Split(field.value, ',')|
    ensures field.Some? && field.value != "" ==>
      forall k :: 0 <= k < |tags| ==> tags[k] == Trim(Split(field.value, ',')[k])
    ensures forall k :: 0 <= k < |tags| ==> IsTrimmed(tags[k]) && ',' !in tags[k]
  {
    if field.Some? && field.value != "" then
      var parts := Split(field.value, ',');
      var tags := seq(|parts|, k requires 0 <= k < |parts| => Trim(parts[k]));
      assert forall k :: 0 <= k < |tags| ==> IsTrimmed(tags[k]) && ',' !in tags[k] by {
        forall k | 0 <= k < |tags| ensures IsTrimmed(tags[k]) && ',' !in tags[k] {
          TrimIsTrimmed(parts[k]);
          TrimPart(parts[k]);
        }
      }
      tags
    else []
  }

  /** Trimming a part keeps it free of commas. */
  lemma {:induction false} TrimPart(part: string)
    requires ',' !in part
    ensures ',' !in Trim(part)
  {
    TrimIsSlice(part);
    var a := |part| - |TrimStart(part)|;
    forall i | 0 <= i < |Trim(part)| ensures Trim(part)[i] != ',' {
      assert Trim(part)[i] == part[a + i];
    }
  }

  /** The prefilled tag field, `editingTopic.tags?.join(", ") || ""`. */
  function PrefillTags(tags: Option<seq<string>>): (field: string)
    ensures tags.None? ==> field == ""
    ensures tags.Some? ==> field == Join(tags.value, ", ")
  {
    if tags.Some? then Join(tags.value, ", ") else ""
  }

  /** The parts of the prefilled field: the first tag and then each further
      tag behind the space of the separator. */
  function Spaced(tags: seq<string>): (r: seq<string>)
    requires |tags| >= 1
    ensures |r| == |tags| && r[0] == tags[0]
    ensures forall k :: 1 <= k < |tags| ==> r[k] == " " + tags[k]
  {
    seq(|tags|, k requires 0 <= k < |tags| => if k == 0 then tags[0] else " " + tags[k])
  }

  lemma {:induction false} SplitPrefilled(tags: seq<string>)
    requires |tags| >= 1
    requires forall k :: 0 <= k < |tags| ==> ',' !in tags[k]
    ensures Split(Join(tags, ", "), ',') == Spaced(tags)
    decreases |tags|
  {
    if |tags| == 1 {
      SplitWithoutSeparator(tags[0], ',');
    } else {
      var rest := tags[1..];
      var z := Join(rest, ", ");
      assert Join(tags, ", ") == tags[0] + [','] + (" " + z);
      SplitAtSeparator(tags[0], ',', " " + z);
      SplitPrefilled(rest);
      var inner := Split(z, ',');
      assert (" " + z)[1..] == z;
      assert Split(" " + z, ',') == [" " + inner[0]] + inner[1..];
      assert ([tags[0]] + ([" " + inner[0]] + inner[1..])) == Spaced(tags);
    }
  }

  /** Editing a topic and saving it unchanged keeps its tags, when none of
      them holds a comma or surrounding whitespace; the single empty tag is
      the one list this loses (it is prefilled as an empty field). */
  lemma {:induction false} TagsRoundTrip(tags: seq<string>)
    requires forall k :: 0 <= k < |tags| ==> ',' !in tags[k] && IsTrimmed(tags[k])
    ensures tags != [""] ==> TagsOf(Some(PrefillTags(Some(tags)))) == tags
    ensures tags == [""] ==> TagsOf(Some(PrefillTags(Some(tags)))) == []
  {
    var field := PrefillTags(Some(tags));
    if |tags| >= 1 && tags != [""] {
      SplitPrefilled(tags);
      var parts := Spaced(tags);
      if |tags| >= 2 {
        assert field == tags[0] + ", " + Join(tags[1..], ", ");
      }
      assert field != "";
      var r := TagsOf(Some(field));
      forall k | 0 <= k < |tags| ensures r[k] == tags[k] {
        if k == 0 {
          TrimOfTrimmed(tags[0]);
        } else {
          TrimLeadingSpace(tags[k]);
        }
      }
    }
  }

  /** A field without a comma is one tag, trimmed. */
  lemma {:induction false} TagsOfSingle(field: string)
    requires field != "" && ',' !in field
    ensures TagsOf(Some(field)) == [Trim(field)]
  {
    SplitWithoutSeparator(field, ',');
  }

  // ---------------------------------------------------------------- topic ids

  /** The modal passes `editingTopic.id`, a number, as the update's id. */
  function UpdateIdAsWritten(editing: ForumStore.Topic): (id: Value)
    ensures id.Num?
  {
    Num(editing.id)
  }

  /** With the number as written, the store's list never takes the updated
      topic: every element stays as it was. */
  lemma {:induction false} UpdateAsWrittenKeepsStaleTopic(topics: seq<ForumStore.Topic>, editing: ForumStore.Topic,
                                                          updated: ForumStore.Topic)
    ensures ForumStore.ReplaceTopicLoose(topics, UpdateIdAsWritten(editing), updated) == topics
  {
    var r := ForumStore.ReplaceTopicLoose(topics, UpdateIdAsWritten(editing), updated);
    assert forall i :: 0 <= i < |topics| ==> r[i] == topics[i];
  }

  /** The id as the other forum handlers pass it, `id.toString()`. */
  function UpdateId(editing: ForumStore.Topic): (id: string)
    ensures ForumStore.TopicHasId(editing, id)
  {
    IntToString(editing.id)
  }

  /** With the decimal string, the topic being edited, and every topic with
      its id, is replaced, and the loose replacement is the store's. */
  lemma {:induction false} UpdateReplacesEditedTopic(topics: seq<ForumStore.Topic>, editing: ForumStore.Topic,
                                                     updated: ForumStore.Topic)
    ensures ForumStore.ReplaceTopicLoose(topics, Str(UpdateId(editing)), updated)
      == ForumStore.ReplaceTopic(topics, UpdateId(editing), updated)
    ensures forall i :: 0 <= i < |topics| && topics[i].id == editing.id ==>
      ForumStore.ReplaceTopic(topics, UpdateId(editing), updated)[i] == updated
  {
    var id := UpdateId(editing);
    var r := ForumStore.ReplaceTopic(topics, id, updated);
    forall i | 0 <= i < |topics| && topics[i].id == editing.id ensures r[i] == updated {
      assert ForumStore.TopicHasId(topics[i], id);
    }
    forall i | 0 <= i < |topics| ensures ForumStore.MatchesLoose(topics[i], Str(id)) == ForumStore.TopicHasId(topics[i], id) {
    }
  }

  // ---------------------------------------------------------------- the modal

  /** What a submit does besides the store update: the request it sends and
      the two callbacks. */
  datatype TopicEffect =
    | CreateRequest(title: string, content: string, tags: seq<string>, forumId: string)
    | UpdateRequest(id: Value, title: string, content: string, tags: seq<string>)
    | CancelCallback
    | SuccessCallback

  /** A `required` rule: the field is present and not empty. */
  predicate Required(field: Option<string>) {
    field.Some? && field.value != ""
  }

  class Form {
    var title: Option<string>
    var content: Option<string>
    var tags: Option<string>

    constructor ()
      ensures title.None? && content.None? && tags.None?
    {
      title := None;
      content := None;
      tags := None;
    }

    /** The prefill effect: the edited topic's fields in edit mode, an
      empty form in create mode, nothing while the modal is closed. */
    method Sync(open: bool, editing: Option<ForumStore.Topic>, mode: Mode)
      modifies this
      ensures open && editing.Some? && mode == EditMode ==>
        && title == Some(editing.value.title) && content == Some(editing.value.content)
        && tags == Some(PrefillTags(Some(editing.value.tags)))
      ensures open && mode == CreateMode ==> title.None? && content.None? && tags.None?
      ensures !open || (mode == EditMode && editing.None?) ==>
        title == old(title) && content == old(content) && tags == old(tags)
    {
      if open && editing.Some? && mode == EditMode {
        title := Some(editing.value.title);
        content := Some(editing.value.content);
        tags := Some(PrefillTags(Some(editing.value.tags)));
      } else if open && mode == CreateMode {
        title := None;
        content := None;
        tags := None;
      }
    }

    /** `handleSubmit` with the id the edit path passes to the store
      (`None` when there is no topic being edited). Nothing happens when
      validation fails, or in edit mode without a topic (reading its id
      throws). Otherwise the topic is created in the forum or updated, the
      form is reset and the modal asks to close and then reports success.
      The store keeps its own errors, so a failed request closes the modal
      too. */
    method Submit(mode: Mode, forumId: string, editId: Option<Value>,
                  store: ForumStore.Store, outcome: ApiResult<ForumStore.Topic>, hasOnSuccess: bool)
      returns (effects: seq<TopicEffect>)
      modifies this, store
      ensures var go := Required(old(title)) && Required(old(content)) && (mode == CreateMode || editId.Some?);
        && (!go ==> effects == [] && title == old(title) && content == old(content) && tags == old(tags))
        && (!go ==> store.topics == old(store.topics) && store.forums == old(store.forums))
        && (go ==> title.None? && content.None? && tags.None?)
        && (go ==> |effects| == (if hasOnSuccess then 3 else 2) && effects[1] == CancelCallback)
        && (go && hasOnSuccess ==> effects[2] == SuccessCallback)
      ensures Required(old(title)) && Required(old(content)) && mode == CreateMode ==>
        && effects[0] == CreateRequest(old(title).value, old(content).value, TagsOf(old(tags)), forumId)
        && (outcome.Success? ==> store.topics == old(store.topics) + [outcome.value])
        && (outcome.Failure? ==> store.topics == old(store.topics))
      ensures Required(old(title)) && Required(old(content)) && mode == EditMode && editId.Some? ==>
        && effects[0] == UpdateRequest(editId.value, old(title).value, old(content).value, TagsOf(old(tags)))
        && (outcome.Success? ==> store.topics == ForumStore.ReplaceTopicLoose(old(store.topics), editId.value, outcome.value))
        && (outcome.Failure? ==> store.topics == old(store.topics))
    {
      effects := [];
      if !Required(title) || !Required(content) {
        return;
      }
      var submitted := TagsOf(tags);
      if mode == CreateMode {
        effects := [CreateRequest(title.value, content.value, submitted, forumId)];
        store.CreateTopic(outcome);
      } else if editId.Some? {
        effects := [UpdateRequest(editId.value, title.value, content.value, submitted)];
        store.UpdateTopic(editId.value, outcome);
      } else {
        return;
      }
      title := None;
      content := None;
      tags := None;
      effects := effects + [CancelCallback];
      if hasOnSuccess {
        effects := effects + [SuccessCallback];
      }
    }

    /** `handleSubmit` as written: the edit path passes the numeric
      `editingTopic.id`, so a successful update leaves the store's list
      exactly as it was. */
    method HandleSubmitAsWritten(mode: Mode, forumId: string, editing: Option<ForumStore.Topic>,
                                 store: ForumStore.Store, outcome: ApiResult<ForumStore.Topic>, hasOnSuccess: bool)
      returns (effects: seq<TopicEffect>)
      modifies this, store
      ensures var go := Required(old(title)) && Required(old(content)) && (mode == CreateMode || editing.Some?);
        && (!go ==> effects == [] && title == old(title) && content == old(content) && tags == old(tags))
        && (!go ==> store.topics == old(store.topics) && store.forums == old(store.forums))
        && (go ==> title.None? && content.None? && tags.None?)
        && (go ==> |effects| == (if hasOnSuccess then 3 else 2) && effects[1] == CancelCallback)
        && (go && hasOnSuccess ==> effects[2] == SuccessCallback)
      ensures Required(old(title)) && Required(old(content)) && mode == CreateMode ==>
        && effects[0] == CreateRequest(old(title).value, old(content).value, TagsOf(old(tags)), forumId)
        && (outcome.Success? ==> store.topics == old(store.topics) + [outcome.value])
        && (outcome.Failure? ==> store.topics == old(store.topics))
      ensures Required(old(title)) && Required(old(content)) && mode == EditMode && editing.Some? ==>
        && effects[0] == UpdateRequest(UpdateIdAsWritten(editing.value), old(title).value, old(content).value, TagsOf(old(tags)))
        && (outcome.Success? ==>
              store.topics == ForumStore.ReplaceTopicLoose(old(store.topics), UpdateIdAsWritten(editing.value), outcome.value)
              && store.topics == old(store.topics))
        && (outcome.Failure? ==> store.topics == old(store.topics))
    {
      var editId := if editing.Some? then Some(UpdateIdAsWritten(editing.value)) else None;
      ghost var before := store.topics;
      effects := Submit(mode, forumId, editId, store, outcome, hasOnSuccess);
      if editing.Some? {
        UpdateAsWrittenKeepsStaleTopic(before, editing.value, if outcome.Success? then outcome.value else editing.value);
      }
    }

    /** `handleSubmit` passing the id as the other forum handlers do, as a
      decimal string: a successful update replaces the edited topic. */
    method HandleSubmit(mode: Mode, forumId: string, editing: Option<ForumStore.Topic>,
                        store: ForumStore.Store, outcome: ApiResult<ForumStore.Topic>, hasOnSuccess: bool)
      returns (effects: seq<TopicEffect>)
      modifies this, store
      ensures var go := Required(old(title)) && Required(old(content)) && (mode == CreateMode || editing.Some?);
        && (!go ==> effects == [] && title == old(title) && content == old(content) && tags == old(tags))
        && (!go ==> store.topics == old(store.topics) && store.forums == old(store.forums))
        && (go ==> title.None? && content.None? && tags.None?)
        && (go ==> |effects| == (if hasOnSuccess then 3 else 2) && effects[1] == CancelCallback)
        && (go && hasOnSuccess ==> effects[2] == SuccessCallback)
      ensures Required(old(title)) && Required(old(content)) && mode == CreateMode ==>
        && effects[0] == CreateRequest(old(title).value, old(content).value, TagsOf(old(tags)), forumId)
        && (outcome.Success? ==> store.topics == old(store.topics) + [outcome.value])
        && (outcome.Failure? ==> store.topics == old(store.topics))
      ensures Required(old(title)) && Required(old(content)) && mode == EditMode && editing.Some? ==>
        && effects[0] == UpdateRequest(Str(UpdateId(editing.value)), old(title).value, old(content).value, TagsOf(old(tags)))
        && (outcome.Success? ==> store.topics == ForumStore.ReplaceTopic(old(store.topics), UpdateId(editing.value), outcome.value))
        && (outcome.Failure? ==> store.topics == old(store.topics))
    {
      var editId := if editing.Some? then Some(Str(UpdateId(editing.value))) else None;
      ghost var before := store.topics;
      effects := Submit(mode, forumId, editId, store, outcome, hasOnSuccess);
      if editing.Some? {
        UpdateReplacesEditedTopic(before, editing.value, if outcome.Success? then outcome.value else editing.value);
      }
    }
  }
}
