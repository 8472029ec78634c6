/**
 * The widget's option bag: the friend records the remote query returns, the
 * item template, and the merge of the caller's options over the defaults
 * that the constructor performs with `$.extend`.
 */
module Settings {
  import opened JsValues

  /** Markup produced by a template. */
  type Markup = string

  /** A friend row, with the columns the friend query selects. */
  datatype Record = Record(uid: string, username: string, firstName: string, lastName: string, name: string)

  /** The options after merging; `userTemplate` renders one friend as list-item markup. */
  datatype Options = Options(
    onUserSelect: Hook,
    userLimit: int,
    userTemplate: Record -> Markup,
    autoclose: bool,
    errorCallback: Hook)

  /**
   * The options a caller passes. `None` stands for a key that is absent or
   * holds `undefined`, both of which `$.extend` skips.
   */
  datatype UserOptions = UserOptions(
    onUserSelect: Option<Hook>,
    userLimit: Option<int>,
    userTemplate: Option<Record -> Markup>,
    autoclose: Option<bool>,
    errorCallback: Option<Hook>)

  /** A call with no options at all (`$.fn.fbfs` passes `{}`). */
  const NoUserOptions := UserOptions(None, None, None, None, None)

  /** The default item template, the prototype's `userTemplate`: one `li` of class `fbfs-user`, with the record's fields substituted as they are. */
  function DefaultUserTemplate(user: Record): (m: Markup)
    ensures |m| >= 22 && m[..22] == "<li class=\"fbfs-user\">"
    ensures |m| >= 5 && m[|m| - 5..] == "</li>"
  {
    var open, close := "<li class=\"fbfs-user\">", "</li>";
    var button :=
      "<button type=\"button\" id=\"" + user.uid + "\" class=\"fb-name\">"
      + "<img alt=\"Portrait of " + user.name + "\" class=\"fb-profileimg\" "
      + "src=\"https://graph.facebook.com/" + user.uid + "/picture\" />"
      + user.name + "</button>";
    var m := open + button + close;
    assert m[..|open|] == open;
    assert m[|m| - |close|..] == close;
    m
  }

  function OrElse<T>(given: Option<T>, default: T): T
  {
    if given.Some? then given.value else default
  }

  /**
   * The constructor's `$.extend(defaults, options)`: every option the caller
   * gives wins, every other one takes its default (no callbacks, ten
   * results, the prototype template, close on select).
   */
  function MergeOptions(user: UserOptions): (o: Options)
    ensures user.onUserSelect.Some? ==> o.onUserSelect == user.onUserSelect.value
    ensures user.onUserSelect.None? ==> o.onUserSelect == Falsy
    ensures user.userLimit.Some? ==> o.userLimit == user.userLimit.value
    ensures user.userLimit.None? ==> o.userLimit == 10
    ensures user.userTemplate.Some? ==> forall r :: o.userTemplate(r) == user.userTemplate.value(r)
    ensures user.userTemplate.None? ==> forall r :: o.userTemplate(r) == DefaultUserTemplate(r)
    ensures user.autoclose.Some? ==> o.autoclose == user.autoclose.value
    ensures user.autoclose.None? ==> o.autoclose
    ensures user.errorCallback.Some? ==> o.errorCallback == user.errorCallback.value
    ensures user.errorCallback.None? ==> o.errorCallback == Falsy
  {
    Options(
      OrElse(user.onUserSelect, Falsy),
      OrElse(user.userLimit, 10),
      OrElse(user.userTemplate, DefaultUserTemplate),
      OrElse(user.autoclose, true),
      OrElse(user.errorCallback, Falsy))
  }

  /** A caller that sets only `onUserSelect` gets exactly that callback and every other default. */
  lemma OnlyCallbackGiven(callback: Hook)
    ensures var o := MergeOptions(NoUserOptions.(onUserSelect := Some(callback)));
            o.onUserSelect == callback && o.userLimit == 10 && o.autoclose && o.errorCallback == Falsy &&
            forall r :: o.userTemplate(r) == DefaultUserTemplate(r)
  {
  }
}
