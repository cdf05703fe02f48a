/**
 * The message handler of `src/botservice.ts`: which incoming posts the bot
 * answers, and how. A post in a channel under a content guard is checked
 * with the guard's prompt; a recognised command is run and its reply posted;
 * otherwise the ignore filter decides, and an answered post is sent to the
 * model with either a saved prompt or the default instructions.
 *
 * The chat platform, the model call and the typing indicator are outside the
 * model: the handler's result says what would be asked or posted.
 */
module Dispatch {
  import opened JsString
  import opened Tokenizer
  import opened Records
  import opened Commands

  // ---------------------------------------------------------------------------
  // The dispatcher's own command table

  /** An entry of the local `COMMANDS` table: one channel type per command. */
  datatype BotCommand = BotCommand(name: string, channelType: string)

  const BOT_COMMANDS: seq<BotCommand> := [
    BotCommand("!help", "D"),
    BotCommand("!content_guard", "D"),
    BotCommand("!prompt", "D"),
    BotCommand("!schedule_prompt", "O")
  ]

  /** `!help` of the dispatcher: one entry per command, marked as available in
      direct messages exactly when its channel type is 'D'. */
  function BotHelp(table: seq<BotCommand>): (r: seq<HelpEntry>)
    ensures |r| == |table|
    ensures forall i :: 0 <= i < |r| ==>
      r[i].command == table[i].name && (r[i].inDirectMessages <==> table[i].channelType == "D")
  {
    if |table| == 0 then []
    else [HelpEntry(table[0].name, table[0].channelType == "D")] + BotHelp(table[1..])
  }

  /** `COMMANDS[token]`: the entry named `token`, if any. */
  function FindCommand(table: seq<BotCommand>, token: string): (r: Option<BotCommand>)
    ensures r.Some? ==> r.value in table && r.value.name == token
    ensures r.None? <==> forall i :: 0 <= i < |table| ==> table[i].name != token
  {
    if |table| == 0 then None
    else if table[0].name == token then Some(table[0])
    else FindCommand(table[1..], token)
  }

  /** `const [, , promptName] = message.split(' ', 3)`: the dispatcher's
      `!schedule_prompt` reads the third word of the raw message, which is the
      prompt name when the message starts with the bot's mention. */
  function ScheduleNameFromPost(message: string): Option<string>
  {
    Field(SplitLimit(message, ' ', 3), 2)
  }

  /** With the mention first, the third word is the prompt name; without it
      the name is missing, and any words after the name are dropped. */
  lemma {:induction false} ScheduleNameNeedsMention(mention: string, name: string, rest: seq<string>)
    requires ' ' !in mention && ' ' !in name
    requires forall i :: 0 <= i < |rest| ==> ' ' !in rest[i]
    ensures ScheduleNameFromPost(Join([mention, "!schedule_prompt", name] + rest, ' ')) == Some(name)
    ensures ScheduleNameFromPost(Join(["!schedule_prompt", name], ' ')) == None
  {
    var words := [mention, "!schedule_prompt", name] + rest;
    forall i | 0 <= i < |words| ensures ' ' !in words[i] {
      if i >= 3 { assert words[i] == rest[i - 3]; }
    }
    SplitAllJoin(words, ' ');
    SplitAllJoin(["!schedule_prompt", name], ' ');
  }

  // ---------------------------------------------------------------------------
  // Incoming messages

  datatype Post = Post(id: string, message: string, rootId: string, channelId: string,
                       userId: string, postType: string)

  datatype MessageData = MessageData(
    event: string,
    channelDisplayName: string,
    channelType: string,
    mentions: seq<string>,
    post: Post,
    senderName: string)

  /** The message addresses the whole channel. */
  predicate Broadcast(message: string)
  {
    Contains(message, "@here") || Contains(message, "@channel") || Contains(message, "@everyone")
  }

  /** `isMessageIgnored`: a broadcast or the bot's own post is ignored; any
      other post is answered exactly when it mentions the bot, or is a
      thread reply in a direct-message channel. */
  function IsMessageIgnored(msg: MessageData, meId: string): (r: bool)
    ensures r <==> (Broadcast(msg.post.message) || msg.post.userId == meId
                    || (meId !in msg.mentions && (msg.post.rootId == "" || msg.channelType != "D")))
  {
    if msg.post.rootId == "" && meId !in msg.mentions then true
    else if Broadcast(msg.post.message) then true
    else if msg.post.userId == meId then true
    else if msg.channelType == "D" || meId in msg.mentions then false
    else true
  }

  // ---------------------------------------------------------------------------
  // Routing

  /** `MATTERMOST_BOTNAME` and `BOT_INSTRUCTION`, each defaulted when unset or
      empty. */
  datatype BotConfig = BotConfig(name: string, instructions: string)

  const DEFAULT_BOT_NAME: string := "@chatgpt"
  const DEFAULT_INSTRUCTIONS: string :=
    "You are a helpful assistant. Whenever users asks you for help you will "
    + "provide them with succinct answers formatted using Markdown. You know the user's name as it is provided within the "
    + "meta data of the messages."

  function ConfigFrom(envName: Option<string>, envInstruction: Option<string>): (r: BotConfig)
    ensures Truthy(envName) ==> r.name == envName.value
    ensures !Truthy(envName) ==> r.name == DEFAULT_BOT_NAME
    ensures Truthy(envInstruction) ==> r.instructions == envInstruction.value
    ensures !Truthy(envInstruction) ==> r.instructions == DEFAULT_INSTRUCTIONS
  {
    BotConfig(if Truthy(envName) then envName.value else DEFAULT_BOT_NAME,
              if Truthy(envInstruction) then envInstruction.value else DEFAULT_INSTRUCTIONS)
  }

  function DefaultInstructions(cfg: BotConfig): string
  {
    "Your name is " + cfg.name + ". " + cfg.instructions
  }

  /** Seven days, the history window for direct messages. */
  const LOOK_BACK_DIRECT_MS: int := 1000 * 60 * 60 * 24 * 7

  /** The history window: seven days in a direct-message channel, the
      default elsewhere. */
  function LookBack(msg: MessageData): (r: Option<int>)
    ensures r.Some? <==> msg.channelType == "D"
    ensures r.Some? ==> r.value == 604800000
  {
    if msg.channelType == "D" then Some(LOOK_BACK_DIRECT_MS) else None
  }

  datatype Route =
    | Ignore
    | RunCommand(name: string)
    | Ask(instructions: string, useFunctions: bool, lookBack: Option<int>)

  /** The first word of the message once the bot's mention is removed. */
  function CommandToken(message: string, botName: string): string
  {
    Split(StripMention(message, botName), ' ', 2)[0]
  }

  /** The post falls under its channel's content guard: a top-level post by
      someone other than the bot in a channel with an active guard. */
  predicate Guarded(msg: MessageData, meId: string, channels: map<string, ChannelGuard>)
  {
    msg.channelDisplayName in channels && channels[msg.channelDisplayName].shouldValidateContent
    && msg.post.rootId == "" && msg.post.userId != meId
  }

  /** The instructions for an answered post: the prompt named by the second
      word (own first, then public, then built-in) followed directly by the
      rest of the message, or the default instructions with plugins enabled. */
  function PromptRoute(msg: MessageData, cfg: BotConfig, prompts: map<string, Prompt>): (r: Route)
    ensures r.Ask? && r.lookBack == LookBack(msg)
    ensures var found := ResolveForDispatch(prompts, Field(Split(msg.post.message, ' ', 2), 1), msg.senderName);
      (r.useFunctions <==> found.None?)
      && (found.None? ==> r.instructions == DefaultInstructions(cfg))
      && (found.Some? ==> found.value <= r.instructions)
    ensures var parts := Split(msg.post.message, ' ', 2);
      var found := ResolveForDispatch(prompts, Field(parts, 1), msg.senderName);
      found.Some? ==> r.instructions == found.value + (if |parts| > 2 then parts[2] else "")
  {
    var parts := Split(msg.post.message, ' ', 2);
    var extra := if |parts| > 2 then parts[2] else "";
    match ResolveForDispatch(prompts, Field(parts, 1), msg.senderName)
    case Some(text) => Ask(text + extra, false, LookBack(msg))
    case None => Ask(DefaultInstructions(cfg), true, LookBack(msg))
  }

  /** `onClientMessage` up to the model call: drop non-post events, apply the
      content guard, run a command whose channel type matches, apply the
      ignore filter, pick the instructions. */
  function RouteMessage(msg: MessageData, meId: string, botName: string, cfg: BotConfig,
                        channels: map<string, ChannelGuard>, prompts: map<string, Prompt>): (r: Route)
    ensures r.RunCommand? ==> FindCommand(BOT_COMMANDS, r.name).Some?
    ensures r.Ask? ==> r.lookBack == LookBack(msg)
  {
    if msg.event != "posted" || meId == "" || msg.post.postType == "system_add_to_channel" then Ignore
    else
      var token := CommandToken(msg.post.message, botName);
      var command := if token != "" then FindCommand(BOT_COMMANDS, token) else None;
      if Guarded(msg, meId, channels) then
        Ask(channels[msg.channelDisplayName].prompt, false, LookBack(msg))
      else if command.Some? && command.value.channelType == msg.channelType then RunCommand(command.value.name)
      else if IsMessageIgnored(msg, meId) then Ignore
      else PromptRoute(msg, cfg, prompts)
  }

  predicate Live(msg: MessageData, meId: string)
  {
    msg.event == "posted" && meId != "" && msg.post.postType != "system_add_to_channel"
  }

  // ---------------------------------------------------------------------------
  // Routing properties

  /** The content guard comes first: a guarded post is checked with the
      guard's prompt, without plugins, even if it is a command, a broadcast,
      or does not mention the bot. */
  lemma GuardFirst(msg: MessageData, meId: string, botName: string, cfg: BotConfig,
                   channels: map<string, ChannelGuard>, prompts: map<string, Prompt>)
    requires Live(msg, meId) && Guarded(msg, meId, channels)
    ensures RouteMessage(msg, meId, botName, cfg, channels, prompts)
      == Ask(channels[msg.channelDisplayName].prompt, false, LookBack(msg))
  {
  }

  /** Only new posts are handled: any other event, a bot without an id, or a
      join notice is ignored before anything else is looked at. */
  lemma NotLiveIgnored(msg: MessageData, meId: string, botName: string, cfg: BotConfig,
                       channels: map<string, ChannelGuard>, prompts: map<string, Prompt>)
    requires !Live(msg, meId)
    ensures RouteMessage(msg, meId, botName, cfg, channels, prompts) == Ignore
  {
  }

  /** A command runs before the ignore filter: a post the guard does not
      catch (a thread reply, a channel without a guard, a direct message)
      whose first word names a command of its channel type runs it, even
      without a mention and even when it is a broadcast. */
  lemma UnguardedCommandRuns(msg: MessageData, meId: string, botName: string, cfg: BotConfig,
                             channels: map<string, ChannelGuard>, prompts: map<string, Prompt>)
    requires Live(msg, meId) && !Guarded(msg, meId, channels)
    requires CommandToken(msg.post.message, botName) != ""
    requires FindCommand(BOT_COMMANDS, CommandToken(msg.post.message, botName)).Some?
    requires FindCommand(BOT_COMMANDS, CommandToken(msg.post.message, botName)).value.channelType == msg.channelType
    ensures RouteMessage(msg, meId, botName, cfg, channels, prompts)
      == RunCommand(CommandToken(msg.post.message, botName))
  {
  }

  /** A command used in the wrong kind of channel is never run: the post goes
      on to the ignore filter and, if answered, to the model. */
  lemma WrongChannelNotRun(msg: MessageData, meId: string, botName: string, cfg: BotConfig,
                           channels: map<string, ChannelGuard>, prompts: map<string, Prompt>)
    requires Live(msg, meId) && !Guarded(msg, meId, channels)
    requires forall c :: (c in BOT_COMMANDS && c.name == CommandToken(msg.post.message, botName)
                          ==> c.channelType != msg.channelType)
    ensures RouteMessage(msg, meId, botName, cfg, channels, prompts)
      == if IsMessageIgnored(msg, meId) then Ignore else PromptRoute(msg, cfg, prompts)
  {
  }

  /** The bot never sends its own posts to the model. */
  lemma OwnPostsNotAsked(msg: MessageData, meId: string, botName: string, cfg: BotConfig,
                         channels: map<string, ChannelGuard>, prompts: map<string, Prompt>)
    requires msg.post.userId == meId
    ensures !RouteMessage(msg, meId, botName, cfg, channels, prompts).Ask?
  {
  }

  /** A broadcast that is neither guarded nor a command is ignored, even when
      it also mentions the bot. */
  lemma BroadcastIgnored(msg: MessageData, meId: string, botName: string, cfg: BotConfig,
                         channels: map<string, ChannelGuard>, prompts: map<string, Prompt>)
    requires !Guarded(msg, meId, channels) && Broadcast(msg.post.message)
    requires !RouteMessage(msg, meId, botName, cfg, channels, prompts).RunCommand?
    ensures RouteMessage(msg, meId, botName, cfg, channels, prompts) == Ignore
  {
  }

  /** With a well-formed prompt store, the prompt the dispatcher substitutes
      is the one the command handlers would resolve for the same sender. */
  lemma {:induction false} PromptRouteResolves(msg: MessageData, cfg: BotConfig, prompts: map<string, Prompt>)
    requires PromptsWellFormed(prompts)
    requires |Split(msg.post.message, ' ', 2)| >= 2
    ensures var parts := Split(msg.post.message, ' ', 2);
      var extra := if |parts| > 2 then parts[2] else "";
      match ResolveScoped(prompts, parts[1], msg.senderName)
      case Some(text) => PromptRoute(msg, cfg, prompts) == Ask(text + extra, false, LookBack(msg))
      case None => PromptRoute(msg, cfg, prompts) == Ask(DefaultInstructions(cfg), true, LookBack(msg))
  {
    var parts := Split(msg.post.message, ' ', 2);
    ResolutionOrdersAgree(prompts, parts[1], msg.senderName);
  }

  /** Setting a guard for a channel makes every later top-level post there by
      someone other than the bot go to the guard's prompt. */
  lemma GuardSetTakesEffect(msg: MessageData, meId: string, botName: string, cfg: BotConfig,
                            channels: map<string, ChannelGuard>, prompts: map<string, Prompt>,
                            prompt: string, sender: string)
    requires Live(msg, meId) && msg.post.rootId == "" && msg.post.userId != meId
    ensures var guarded := channels[msg.channelDisplayName := ChannelGuard(true, msg.channelDisplayName, prompt, sender)];
      RouteMessage(msg, meId, botName, cfg, guarded, prompts) == Ask(prompt, false, LookBack(msg))
  {
  }

  /** `!content_guard delete` by the guard's creator lets the channel's posts
      through to the ordinary rules: they are routed as if no channel had a
      guard. */
  lemma GuardDeleteLiftsIt(msg: MessageData, meId: string, botName: string, cfg: BotConfig,
                           st: StoreState, sender: string)
    requires msg.channelDisplayName in st.channels
    requires st.channels[msg.channelDisplayName].createdBy == sender
    ensures var (after, reply) := GuardStep(st, DeleteGuard(msg.channelDisplayName), sender);
      && reply == GuardDeleted(msg.channelDisplayName)
      && !Guarded(msg, meId, after.channels)
      && RouteMessage(msg, meId, botName, cfg, after.channels, after.prompts)
         == RouteMessage(msg, meId, botName, cfg, map[], st.prompts)
  {
  }

  // ---------------------------------------------------------------------------
  // The handler

  /** What the handler does with a post. `Answered` and `Apologized` posts go
      to the thread `root`; `AskModel` asks the model, whose answer (or the
      apology if that fails) goes there too. */
  datatype Outcome =
    | Ignored
    | Answered(reply: Reply, root: string)
    | Apologized(root: string)
    | AskModel(instructions: string, useFunctions: bool, lookBack: Option<int>, root: string)

  /** `root_id || id`: the reply continues the thread, or starts one on the post. */
  function ReplyRoot(post: Post): (r: string)
    ensures post.rootId != "" ==> r == post.rootId
    ensures post.rootId == "" ==> r == post.id
  {
    if post.rootId != "" then post.rootId else post.id
  }

  /** `onClientMessage`. `handlerThrows` says a command handler failed
      before changing anything; `postOk` whether posting its reply
      succeeded. Only a command changes the stores, and each command only its
      own collection. */
  method OnClientMessage(stores: Stores, msg: MessageData, meId: string, botName: string,
                         cfg: BotConfig, now: int, handlerThrows: bool, postOk: bool)
    returns (outcome: Outcome)
    requires stores.Valid()
    modifies stores
    ensures stores.Valid()
    ensures var route := RouteMessage(msg, meId, botName, cfg, old(stores.channels), old(stores.prompts));
      match route
      case Ignore => outcome == Ignored && stores.State() == old(stores.State())
      case Ask(instructions, useFunctions, lookBack) =>
        outcome == AskModel(instructions, useFunctions, lookBack, ReplyRoot(msg.post))
        && stores.State() == old(stores.State())
      case RunCommand(name) =>
        (handlerThrows ==> outcome == Apologized(ReplyRoot(msg.post)) && stores.State() == old(stores.State()))
        && (!handlerThrows && !postOk ==> outcome == Apologized(ReplyRoot(msg.post)))
        && (!handlerThrows && postOk ==> outcome.Answered? && outcome.root == ReplyRoot(msg.post))
        && (name == "!help" ==> stores.State() == old(stores.State()))
        && (name == "!help" && !handlerThrows && postOk ==> outcome.reply == HelpText(BotHelp(BOT_COMMANDS)))
        && (name == "!content_guard" ==> stores.State() == old(stores.State()).(channels := stores.channels))
        && (name == "!prompt" ==> stores.State() == old(stores.State()).(prompts := stores.prompts))
        && (name == "!schedule_prompt" ==> stores.State() == old(stores.State()).(scheduled := stores.scheduled))
        && (name == "!content_guard" && !handlerThrows ==>
              var step := GuardStep(old(stores.State()), ParseGuardRequest(msg.post.message), msg.senderName);
              stores.State() == step.0 && (postOk ==> outcome.reply == step.1))
        && (name == "!prompt" && !handlerThrows ==>
              var step := PromptStep(old(stores.State()), ParsePromptRequest(msg.post.message), msg.senderName);
              stores.State() == step.0 && (postOk ==> outcome.reply == step.1))
        && (name == "!schedule_prompt" && !handlerThrows ==>
              var step := ScheduleStep(old(stores.State()), ScheduleNameFromPost(msg.post.message), msg.post.rootId,
                                       msg.post.channelId, msg.post.id, msg.senderName, now);
              stores.State() == step.0 && (postOk ==> outcome.reply == step.1))
  {
    var route := RouteMessage(msg, meId, botName, cfg, stores.channels, stores.prompts);
    match route
    case Ignore =>
      outcome := Ignored;
    case Ask(instructions, useFunctions, lookBack) =>
      outcome := AskModel(instructions, useFunctions, lookBack, ReplyRoot(msg.post));
    case RunCommand(name) =>
      var root := ReplyRoot(msg.post);
      if handlerThrows {
        return Apologized(root);
      }
      var reply: Reply;
      if name == "!help" {
        reply := HelpText(BotHelp(BOT_COMMANDS));
      } else if name == "!content_guard" {
        reply := stores.ContentGuard(msg.post.message, msg.senderName);
      } else if name == "!prompt" {
        reply := stores.PromptCommand(msg.post.message, msg.senderName);
      } else {
        reply := stores.SchedulePrompt(ScheduleNameFromPost(msg.post.message), msg.post.rootId,
                                       msg.post.channelId, msg.post.id, msg.senderName, now);
      }
      outcome := if postOk then Answered(reply, root) else Apologized(root);
  }
}
