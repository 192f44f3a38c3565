/**
 * The transaction form: Lua code, an editable tag list that starts with a
 * Content-Type tag, a data field, and a submit that is ignored while an
 * earlier one is still in progress.
 */
module ArweaveForm {
  import PS = ProcessSpawner

  type Tag = PS.Tag

  /** What the form hands to its `onSubmit` callback. */
  datatype Submission = Submission(luaCode: string, tags: seq<Tag>, data: string)

  /** The form's state; `sent` lists the submissions handed to the callback, oldest first. */
  datatype FormState = FormState(luaCode: string, tags: seq<Tag>, data: string, isSubmitting: bool, sent: seq<Submission>)

  const InitialTags: seq<Tag> := [PS.Tag("Content-Type", "application/json")]

  function Initial(initialLuaCode: string): (s: FormState)
    ensures s.tags == InitialTags && s.data == "" && !s.isSubmitting && s.sent == []
  {
    FormState(initialLuaCode, InitialTags, "", false, [])
  }

  /** `xs.filter((_, i) => i !== index)`. */
  function Without<T>(xs: seq<T>, index: int): (r: seq<T>)
    ensures |r| <= |xs|
  {
    if xs == [] then []
    else (if index == 0 then [] else [xs[0]]) + Without(xs[1..], index - 1)
  }

  /** An index inside the list drops that element alone; any other index drops nothing. */
  lemma {:induction false} WithoutSpec<T>(xs: seq<T>, index: int)
    ensures 0 <= index < |xs| ==> Without(xs, index) == xs[..index] + xs[index + 1..]
    ensures !(0 <= index < |xs|) ==> Without(xs, index) == xs
  {
    if xs != [] {
      WithoutSpec(xs[1..], index - 1);
      if 0 < index < |xs| {
        assert [xs[0]] + (xs[1..][..index - 1] + xs[1..][index..]) == xs[..index] + xs[index + 1..];
      } else if index == 0 {
        assert xs[1..] == xs[..0] + xs[1..];
      } else {
        assert [xs[0]] + xs[1..] == xs;
      }
    }
  }

  /** Removing the tag just added restores the list. */
  lemma RemoveAdded(tags: seq<Tag>)
    ensures Without(PS.AddTag(tags), |tags|) == tags
  {
    WithoutSpec(PS.AddTag(tags), |tags|);
    assert PS.AddTag(tags)[..|tags|] == tags;
  }

  /** `handleSubmit` up to the callback: ignored while a submission is in progress. */
  function BeginSubmit(s: FormState, hasCallback: bool): FormState
  {
    if s.isSubmitting then s
    else s.(isSubmitting := true, sent := s.sent + if hasCallback then [Submission(s.luaCode, s.tags, s.data)] else [])
  }

  /** The `finally` of `handleSubmit`: whether the callback threw or not, the flag is cleared. */
  function EndSubmit(s: FormState): FormState
  {
    s.(isSubmitting := false)
  }

  /**
   * A submit while one is in progress changes nothing. Otherwise it hands
   * the current code, tags and data to the callback (if there is one) once,
   * and once it settles the form is no longer submitting; the fields of the
   * form are never changed.
   */
  lemma SubmitSpec(s: FormState, hasCallback: bool)
    ensures s.isSubmitting ==> BeginSubmit(s, hasCallback) == s
    ensures !s.isSubmitting ==>
      var t := BeginSubmit(s, hasCallback);
      t.isSubmitting
      && |t.sent| == |s.sent| + (if hasCallback then 1 else 0)
      && t.sent[..|s.sent|] == s.sent
      && (hasCallback ==> t.sent[|s.sent|] == Submission(s.luaCode, s.tags, s.data))
      && BeginSubmit(t, hasCallback) == t
    ensures var u := EndSubmit(BeginSubmit(s, hasCallback));
      !u.isSubmitting && u.luaCode == s.luaCode && u.tags == s.tags && u.data == s.data
  {
  }

  class Form {
    var state: FormState

    constructor(initialLuaCode: string)
      ensures state == Initial(initialLuaCode)
    {
      state := Initial(initialLuaCode);
    }

    method HandleAddTag()
      modifies this
      ensures state == old(state).(tags := PS.AddTag(old(state).tags))
    {
      state := state.(tags := state.tags + [PS.EmptyTag]);
    }

    method HandleRemoveTag(index: int)
      modifies this
      ensures state == old(state).(tags := Without(old(state).tags, index))
    {
      state := state.(tags := Without(state.tags, index));
    }

    method HandleTagChange(index: nat, field: PS.TagField, value: string)
      requires index < |state.tags|
      modifies this
      ensures state == old(state).(tags := PS.ChangeTag(old(state).tags, index, field, value))
    {
      var newTags := state.tags;
      if field == PS.Name {
        newTags := newTags[index := newTags[index].(name := value)];
      } else {
        newTags := newTags[index := newTags[index].(value := value)];
      }
      state := state.(tags := newTags);
    }

    /** Returns whether the submission went ahead. */
    method HandleSubmit(hasCallback: bool) returns (started: bool)
      modifies this
      ensures started == !old(state).isSubmitting
      ensures state == BeginSubmit(old(state), hasCallback)
    {
      if state.isSubmitting {
        return false;
      }
      var sending := if hasCallback then [Submission(state.luaCode, state.tags, state.data)] else [];
      state := state.(isSubmitting := true, sent := state.sent + sending);
      return true;
    }

    method SubmitSettled()
      modifies this
      ensures state == EndSubmit(old(state))
    {
      state := state.(isSubmitting := false);
    }
  }
}
