/**
 * The persisted entities the commands create and the sweeps consume, the
 * built-in prompt table `HANDLE_PROMPTS`, and the prompt resolution rules the
 * handlers, the dispatcher and the sweeps apply to a prompt name.
 *
 * The storage queries are modelled by their meaning on in-memory values:
 * `get` returns the first record matching a filter, `getAll` every matching
 * record in storage order.
 */
module Records {
  import opened JsString

  // ---------------------------------------------------------------------------
  // Built-in prompts

  /** The texts of `summaryPrompt`, `summaryDayPrompt` and
      `summaryAdvicePrompt` (src/summary.ts is not part of this model; these
      stand-ins only share the property the code relies on: they are
      non-empty). */
  const SUMMARY_PROMPT: string := "summaryPrompt"
  const SUMMARY_DAY_PROMPT: string := "summaryDayPrompt"
  const SUMMARY_ADVICE_PROMPT: string := "summaryAdvicePrompt"

  const HANDLE_PROMPTS: map<string, string> := map[
    "summary" := SUMMARY_PROMPT,
    "summary_day" := SUMMARY_DAY_PROMPT,
    "summary_advice" := SUMMARY_ADVICE_PROMPT
  ]

  /** The members every object literal inherits from `Object.prototype`,
      each with the text it turns into where the code interpolates or
      concatenates it: a method shows as its native source, `__proto__` (the
      prototype object itself) as "[object Object]". */
  const OBJECT_PROTOTYPE: map<string, string> := map[
    "constructor" := "function Object() { [native code] }",
    "hasOwnProperty" := "function hasOwnProperty() { [native code] }",
    "isPrototypeOf" := "function isPrototypeOf() { [native code] }",
    "propertyIsEnumerable" := "function propertyIsEnumerable() { [native code] }",
    "toLocaleString" := "function toLocaleString() { [native code] }",
    "toString" := "function toString() { [native code] }",
    "valueOf" := "function valueOf() { [native code] }",
    "__defineGetter__" := "function __defineGetter__() { [native code] }",
    "__defineSetter__" := "function __defineSetter__() { [native code] }",
    "__lookupGetter__" := "function __lookupGetter__() { [native code] }",
    "__lookupSetter__" := "function __lookupSetter__() { [native code] }",
    "__proto__" := "[object Object]"
  ]

  /** `HANDLE_PROMPTS[name]` when it is truthy: an own entry of the table, or
      else a member inherited from `Object.prototype` (every one of which is
      truthy), as text. */
  function HandlePrompt(name: string): (r: Option<string>)
    ensures name in HANDLE_PROMPTS ==> r == Some(HANDLE_PROMPTS[name])
    ensures name !in HANDLE_PROMPTS ==> (r.Some? <==> name in OBJECT_PROTOTYPE)
    ensures r.Some? ==> r.value != ""
  {
    if name in HANDLE_PROMPTS then
      if HANDLE_PROMPTS[name] != "" then Some(HANDLE_PROMPTS[name]) else None
    else if name in OBJECT_PROTOTYPE then Some(OBJECT_PROTOTYPE[name])
    else None
  }

  /** `HANDLE_PROMPTS[name]` is truthy. */
  predicate IsBuiltIn(name: string)
  {
    HandlePrompt(name).Some?
  }

  /** Two inherited members as the command handlers see them. */
  lemma InheritedExamples()
    ensures IsBuiltIn("toString")
    ensures HandlePrompt("valueOf") == Some("function valueOf() { [native code] }")
  {
    assert "toString" !in HANDLE_PROMPTS && "toString" in OBJECT_PROTOTYPE;
    assert "valueOf" !in HANDLE_PROMPTS && OBJECT_PROTOTYPE["valueOf"] == "function valueOf() { [native code] }";
  }

  // ---------------------------------------------------------------------------
  // Entities

  /** A content guard, keyed by channel display name. */
  datatype ChannelGuard = ChannelGuard(
    shouldValidateContent: bool,
    channelDisplayName: string,
    prompt: string,
    createdBy: string)

  datatype Visibility = Public | Private

  /** A saved prompt, keyed by name; `kind` is its lower-cased `type`. */
  datatype Prompt = Prompt(name: string, text: string, kind: Visibility, createdBy: string)

  /** A one-shot "apply this prompt to this thread at the end of the day" entry. */
  datatype ScheduledEntry = ScheduledEntry(
    threadId: string,
    channelId: string,
    messageId: string,
    senderName: string,
    promptName: string,
    createdAt: int,
    runDate: int,
    finished: bool,
    finishedAt: Option<int>)

  /** A reminder: a prompt posted to a channel at a time of day. */
  datatype Reminder = Reminder(
    messageId: string,
    channelId: string,
    promptName: string,
    createdAt: int,
    runDate: int,
    time: string,
    repeat: bool,
    days: seq<string>,
    createdBy: string,
    active: bool,
    withHistory: bool,
    finishedAt: Option<int>)

  datatype Faq = Faq(name: string, text: string, createdBy: string, createdAt: int)

  // ---------------------------------------------------------------------------
  // Prompt resolution

  /** A stored prompt `user` may use: public, or private and created by `user`
      (the filter `{ name, $or: [{ type: 'public' }, { type: 'private',
      created_by: user }] }`). */
  predicate VisibleTo(p: Prompt, user: string)
  {
    p.kind == Public || p.createdBy == user
  }

  /** `HANDLE_PROMPTS[name] || prompts.get({ name, $or: [...] })`: the built-in
      text first, else a stored prompt visible to `user`. Used by
      `!schedule_prompt`, `!reminder add` and the daily sweep. */
  function ResolveScoped(prompts: map<string, Prompt>, name: string, user: string): (r: Option<string>)
    ensures IsBuiltIn(name) ==> r == HandlePrompt(name)
    ensures !IsBuiltIn(name) ==>
      (r.Some? <==> name in prompts && VisibleTo(prompts[name], user))
    ensures !IsBuiltIn(name) && r.Some? ==> r.value == prompts[name].text
  {
    if IsBuiltIn(name) then HandlePrompt(name)
    else if name in prompts && VisibleTo(prompts[name], user) then Some(prompts[name].text)
    else None
  }

  /** The dispatcher's order: the user's own prompt (any type), then a public
      prompt, and only then `HANDLE_PROMPTS`. An absent name (`undefined`)
      finds nothing. */
  function ResolveForDispatch(prompts: map<string, Prompt>, name: Option<string>, user: string): (r: Option<string>)
    ensures name.None? ==> r.None?
    ensures name.Some? && name.value in prompts && VisibleTo(prompts[name.value], user)
      ==> r == Some(prompts[name.value].text)
    ensures name.Some? && !(name.value in prompts && VisibleTo(prompts[name.value], user))
      ==> r == HandlePrompt(name.value)
  {
    match name
    case None => None
    case Some(n) =>
      var own := if n in prompts && prompts[n].createdBy == user then Some(prompts[n]) else None;
      var public := if own.None? && n in prompts && prompts[n].kind == Public then Some(prompts[n]) else None;
      if own.Some? then Some(own.value.text)
      else if public.Some? then Some(public.value.text)
      else if IsBuiltIn(n) then HandlePrompt(n)
      else None
  }

  /** Store invariant kept by `!prompt save`: every prompt is filed under its
      own name, and no stored prompt shadows a built-in one. */
  predicate PromptsWellFormed(prompts: map<string, Prompt>)
  {
    forall n :: n in prompts ==> prompts[n].name == n && !IsBuiltIn(n)
  }

  /** Because a stored prompt never takes a built-in name, the dispatcher's
      stored-first order and the handlers' built-in-first order resolve every
      name to the same text. */
  lemma ResolutionOrdersAgree(prompts: map<string, Prompt>, name: string, user: string)
    requires PromptsWellFormed(prompts)
    ensures ResolveForDispatch(prompts, Some(name), user) == ResolveScoped(prompts, name, user)
  {
  }
}
