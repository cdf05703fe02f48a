/**
 * `getChatMessagesByPosts` of `src/utils/posts.ts`: the conversation handed to
 * the model. It is one system message holding the instructions, then one
 * message per post of the context window. A post written by the bot becomes
 * an assistant message. Any other post becomes a user message carrying its
 * author's name and its creation date.
 *
 * A post's content is made of parts. An attachment post contributes each
 * attachment's title and text. Any other post contributes its message. Then
 * come the reactions, grouped by emoji. The parts are joined by blank lines.
 *
 * The user-name lookup and the date formatting are parameters: a map from
 * user id to name (a missing id is a failed lookup) and a formatting function.
 */
module Posts {
  import opened JsString
  import Schedule

  datatype Attachment = Attachment(title: Option<string>, text: Option<string>)

  datatype Reaction = Reaction(emoji: string, userId: string)

  /** The fields of a Mattermost post the builder reads. `attachments` is
      `Some` when `props.attachments` is an array; `originalMessage` is
      `props.originalMessage`. */
  datatype ThreadPost = ThreadPost(
    userId: string,
    postType: string,
    attachments: Option<seq<Attachment>>,
    originalMessage: Option<string>,
    message: string,
    reactions: seq<Reaction>,
    createAt: int)

  datatype ChatMessage =
    | System(content: string)
    | Assistant(content: string)
    | User(name: Option<string>, content: string)

  /** `BOT_CONTEXT_MSG ?? 2500`. */
  const DEFAULT_CONTEXT_MSG_COUNT: int := 2500

  /** `parts.join(sep)`. */
  function JoinWith(parts: seq<string>, sep: string): string
  {
    if |parts| == 0 then ""
    else if |parts| == 1 then parts[0]
    else parts[0] + sep + JoinWith(parts[1..], sep)
  }

  /** `userIdToName(id)`: the user's username. An id missing from `names`
      stands for a user record without a username, for which the code gets
      `undefined`; a lookup that rejects is not modelled. */
  function NameOf(names: map<string, string>, userId: string): Option<string>
  {
    if userId in names then Some(names[userId]) else None
  }

  // ---------------------------------------------------------------------------
  // Context window

  /** `posts.slice(-count)`. A positive count keeps the last `count` posts.
      A count of zero keeps them all, because `-0` is `0`. A negative count
      drops the first `-count` posts. */
  function ContextWindow(posts: seq<ThreadPost>, count: int): (r: seq<ThreadPost>)
    ensures count > 0 ==> |r| == (if |posts| < count then |posts| else count)
    ensures count > 0 ==> r == posts[|posts| - |r|..]
    ensures count == 0 ==> r == posts
    ensures count < 0 ==> r == posts[(if -count < |posts| then -count else |posts|)..]
  {
    var start := -count;
    if start < 0 then
      (if |posts| + start < 0 then posts else posts[|posts| + start..])
    else if start > |posts| then []
    else posts[start..]
  }

  // ---------------------------------------------------------------------------
  // Reactions

  /** One entry of `grouped`: an emoji and the users who reacted with it. */
  datatype Group = Group(emoji: string, users: seq<string>)

  /** `userIdToName(r.user_id) ?? r.user_id`: the id stands in for a user
      without a username. */
  function ReactorName(names: map<string, string>, userId: string): string
  {
    if userId in names then names[userId] else userId
  }

  /** Position of the group for `emoji`, or `|g|` when there is none. */
  function GroupIndex(g: seq<Group>, emoji: string): (r: nat)
    ensures r <= |g|
    ensures r < |g| ==> g[r].emoji == emoji
    ensures forall k :: 0 <= k < r ==> g[k].emoji != emoji
  {
    if |g| == 0 then 0
    else if g[0].emoji == emoji then 0
    else 1 + GroupIndex(g[1..], emoji)
  }

  /** `grouped[emoji] = grouped[emoji] || []; grouped[emoji].push(user)`. */
  function AddReaction(g: seq<Group>, emoji: string, user: string): seq<Group>
  {
    var k := GroupIndex(g, emoji);
    if k < |g| then g[k := Group(emoji, g[k].users + [user])] else g + [Group(emoji, [user])]
  }

  /** The groups after the reactions have been added one at a time, in order. */
  function Grouped(rs: seq<Reaction>, names: map<string, string>): seq<Group>
  {
    if |rs| == 0 then []
    else AddReaction(Grouped(rs[..|rs| - 1], names), rs[|rs| - 1].emoji, ReactorName(names, rs[|rs| - 1].userId))
  }

  /** The reactors with a given emoji, in reaction order: an independent
      description of one group. */
  function UsersFor(rs: seq<Reaction>, emoji: string, names: map<string, string>): seq<string>
  {
    if |rs| == 0 then []
    else (UsersFor(rs[..|rs| - 1], emoji, names)
          + (if rs[|rs| - 1].emoji == emoji then [ReactorName(names, rs[|rs| - 1].userId)] else []))
  }

  /** An emoji nobody reacted with has no reactors. */
  lemma {:induction false} UsersForAbsent(rs: seq<Reaction>, emoji: string, names: map<string, string>)
    requires forall i :: 0 <= i < |rs| ==> rs[i].emoji != emoji
    ensures UsersFor(rs, emoji, names) == []
  {
    if |rs| > 0 {
      UsersForAbsent(rs[..|rs| - 1], emoji, names);
    }
  }

  /** The groups carry distinct emojis, one for each emoji that occurs. */
  lemma {:induction false} GroupedEmojis(rs: seq<Reaction>, names: map<string, string>)
    ensures var g := Grouped(rs, names);
      |g| <= |rs|
      && (forall i, j :: 0 <= i < j < |g| ==> g[i].emoji != g[j].emoji)
      && (forall i :: 0 <= i < |rs| ==> exists k :: 0 <= k < |g| && g[k].emoji == rs[i].emoji)
  {
    if |rs| > 0 {
      var init := rs[..|rs| - 1];
      var last := rs[|rs| - 1];
      var user := ReactorName(names, last.userId);
      GroupedEmojis(init, names);
      var g0 := Grouped(init, names);
      var g := Grouped(rs, names);
      var k := GroupIndex(g0, last.emoji);
      assert g == AddReaction(g0, last.emoji, user);
      forall i | 0 <= i < |rs| ensures exists m :: 0 <= m < |g| && g[m].emoji == rs[i].emoji {
        if i == |rs| - 1 {
          assert g[k].emoji == rs[i].emoji;
        } else {
          assert rs[i] == init[i];
          var m :| 0 <= m < |g0| && g0[m].emoji == init[i].emoji;
          assert g[m].emoji == rs[i].emoji;
        }
      }
    }
  }

  /** Each group lists, in reaction order, every user who reacted with its
      emoji and nobody else. */
  lemma {:induction false} GroupedUsers(rs: seq<Reaction>, names: map<string, string>)
    ensures var g := Grouped(rs, names);
      forall k :: 0 <= k < |g| ==> g[k].users == UsersFor(rs, g[k].emoji, names) && g[k].users != []
  {
    if |rs| > 0 {
      var init := rs[..|rs| - 1];
      var last := rs[|rs| - 1];
      var user := ReactorName(names, last.userId);
      GroupedUsers(init, names);
      GroupedEmojis(init, names);
      var g0 := Grouped(init, names);
      var g := Grouped(rs, names);
      var k := GroupIndex(g0, last.emoji);
      assert g == AddReaction(g0, last.emoji, user);
      assert forall e :: (UsersFor(rs, e, names)
                          == UsersFor(init, e, names) + (if last.emoji == e then [user] else []));
      forall m | 0 <= m < |g|
        ensures g[m].users == UsersFor(rs, g[m].emoji, names) && g[m].users != []
      {
        if m < |g0| && m != k {
          assert g[m] == g0[m];
        } else if m == k && k < |g0| {
          assert g[m] == Group(last.emoji, g0[k].users + [user]);
        } else {
          assert g[m] == Group(last.emoji, [user]);
          forall i | 0 <= i < |init| ensures init[i].emoji != last.emoji {
            var w :| 0 <= w < |g0| && g0[w].emoji == init[i].emoji;
          }
          UsersForAbsent(init, last.emoji, names);
        }
      }
    }
  }

  /** One line per group, `:emoji: от user1, user2`. */
  function GroupLines(g: seq<Group>): (r: seq<string>)
  {
    if |g| == 0 then []
    else [":" + g[0].emoji + ": от " + JoinWith(g[0].users, ", ")] + GroupLines(g[1..])
  }

  // ---------------------------------------------------------------------------
  // The order of `Object.entries(grouped)`

  predicate AllDigits(s: string)
  {
    forall i :: 0 <= i < |s| ==> Schedule.IsDigit(s[i])
  }

  /** The number a string of decimal digits spells. */
  function DecimalValue(s: string): nat
    requires AllDigits(s)
  {
    if |s| == 0 then 0 else DecimalValue(s[..|s| - 1]) * 10 + Schedule.DigitValue(s[|s| - 1])
  }

  /** A property key that is an array index: the canonical decimal form (no
      leading zero) of an integer below 2^32 - 1. */
  predicate IsArrayIndex(key: string)
  {
    |key| >= 1 && AllDigits(key) && (key[0] == '0' ==> |key| == 1) && DecimalValue(key) < 0xFFFF_FFFF
  }

  /** The order key of an array-index group. */
  function EntryKey(x: Group): nat
  {
    if IsArrayIndex(x.emoji) then DecimalValue(x.emoji) else 0
  }

  predicate AllIndexKeys(s: seq<Group>)
  {
    forall k :: 0 <= k < |s| ==> IsArrayIndex(s[k].emoji)
  }

  predicate Ascending(s: seq<Group>)
  {
    forall i, j :: 0 <= i < j < |s| ==> EntryKey(s[i]) <= EntryKey(s[j])
  }

  /** The groups whose emoji is an array index, in insertion order. */
  function IndexGroups(g: seq<Group>): (r: seq<Group>)
    ensures AllIndexKeys(r)
    ensures forall x :: x in r <==> x in g && IsArrayIndex(x.emoji)
  {
    if |g| == 0 then []
    else (if IsArrayIndex(g[0].emoji) then [g[0]] else []) + IndexGroups(g[1..])
  }

  /** The other groups, in insertion order. */
  function NamedGroups(g: seq<Group>): (r: seq<Group>)
    ensures forall x :: x in r <==> x in g && !IsArrayIndex(x.emoji)
  {
    if |g| == 0 then []
    else (if IsArrayIndex(g[0].emoji) then [] else [g[0]]) + NamedGroups(g[1..])
  }

  lemma {:induction false} SplitByKeyKind(g: seq<Group>)
    ensures multiset(IndexGroups(g)) + multiset(NamedGroups(g)) == multiset(g)
  {
    if |g| > 0 {
      SplitByKeyKind(g[1..]);
      assert g == [g[0]] + g[1..];
    }
  }

  function InsertByIndex(x: Group, s: seq<Group>): (r: seq<Group>)
    ensures multiset(r) == multiset(s) + multiset{x}
    ensures |r| == |s| + 1 && (r[0] == x || (|s| > 0 && r[0] == s[0]))
  {
    if |s| == 0 then [x]
    else if EntryKey(x) <= EntryKey(s[0]) then [x] + s
    else
      assert s == [s[0]] + s[1..];
      [s[0]] + InsertByIndex(x, s[1..])
  }

  /** Inserting into an ascending sequence keeps it ascending. */
  lemma {:induction false} InsertByIndexAscending(x: Group, s: seq<Group>)
    requires Ascending(s)
    ensures Ascending(InsertByIndex(x, s))
  {
    if |s| > 0 && EntryKey(x) > EntryKey(s[0]) {
      var t := InsertByIndex(x, s[1..]);
      InsertByIndexAscending(x, s[1..]);
      assert EntryKey(s[0]) <= EntryKey(t[0]) by {
        if t[0] != x {
          assert t[0] == s[1];
        }
      }
      var r := [s[0]] + t;
      forall i, j | 0 <= i < j < |r| ensures EntryKey(r[i]) <= EntryKey(r[j]) {
        if i > 0 {
          assert r[i] == t[i - 1] && r[j] == t[j - 1];
        } else if j > 1 {
          assert r[j] == t[j - 1];
        }
      }
    }
  }

  /** The array-index groups in ascending numeric order. */
  function SortByIndex(s: seq<Group>): (r: seq<Group>)
    ensures multiset(r) == multiset(s)
    ensures Ascending(r)
  {
    if |s| == 0 then []
    else
      assert s == [s[0]] + s[1..];
      InsertByIndexAscending(s[0], SortByIndex(s[1..]));
      InsertByIndex(s[0], SortByIndex(s[1..]))
  }

  /** `Object.entries(grouped)`: the groups whose emoji is an array index
      come first, in ascending numeric order, then every other group in the
      order its emoji was first added. */
  function Entries(g: seq<Group>): (r: seq<Group>)
    ensures multiset(r) == multiset(g)
    ensures var n := |IndexGroups(g)|;
      n <= |r| && AllIndexKeys(r[..n]) && Ascending(r[..n]) && r[n..] == NamedGroups(g)
  {
    SplitByKeyKind(g);
    var sorted := SortByIndex(IndexGroups(g));
    assert |sorted| == |multiset(sorted)| == |IndexGroups(g)|;
    assert AllIndexKeys(sorted) by {
      forall k | 0 <= k < |sorted| ensures IsArrayIndex(sorted[k].emoji) {
        assert sorted[k] in multiset(IndexGroups(g));
      }
    }
    var r := sorted + NamedGroups(g);
    assert r[..|sorted|] == sorted;
    r
  }

  /** With no array-index emoji, the entries keep insertion order. */
  lemma {:induction false} EntriesInsertionOrder(g: seq<Group>)
    requires forall k :: 0 <= k < |g| ==> !IsArrayIndex(g[k].emoji)
    ensures Entries(g) == g
  {
    NamedGroupsAll(g);
    IndexGroupsNone(g);
  }

  lemma {:induction false} NamedGroupsAll(g: seq<Group>)
    requires forall k :: 0 <= k < |g| ==> !IsArrayIndex(g[k].emoji)
    ensures NamedGroups(g) == g
  {
    if |g| > 0 {
      NamedGroupsAll(g[1..]);
    }
  }

  lemma {:induction false} IndexGroupsNone(g: seq<Group>)
    requires forall k :: 0 <= k < |g| ==> !IsArrayIndex(g[k].emoji)
    ensures IndexGroups(g) == []
  {
    if |g| > 0 {
      IndexGroupsNone(g[1..]);
    }
  }

  /** The groups ":thumbsup:" then ":100:" are listed ":100:" first. */
  lemma EntriesPutsIndexFirst(a: seq<string>, b: seq<string>)
    ensures Entries([Group("thumbsup", a), Group("100", b)]) == [Group("100", b), Group("thumbsup", a)]
  {
    var g := [Group("thumbsup", a), Group("100", b)];
    assert AllDigits("100");
    assert DecimalValue("100") == 100 by {
      assert "100"[..2] == "10" && "10"[..1] == "1" && "1"[..0] == "";
    }
    assert IsArrayIndex("100");
    assert !IsArrayIndex("thumbsup") by {
      assert !Schedule.IsDigit("thumbsup"[0]);
    }
    assert g[1..] == [Group("100", b)] && g[1..][1..] == [];
    assert IndexGroups(g[1..]) == [Group("100", b)] + IndexGroups([]);
    assert NamedGroups(g[1..]) == NamedGroups([]);
    assert IndexGroups(g) == [Group("100", b)];
    assert NamedGroups(g) == [Group("thumbsup", a)];
    assert SortByIndex([Group("100", b)]) == [Group("100", b)];
  }

  /** The reactions part: one line per group, in `Object.entries` order. */
  function ReactionText(g: seq<Group>): string
  {
    "\U{1F4AC} Реакции:\n" + JoinWith(GroupLines(Entries(g)), "\n")
  }

  /** The grouping loop of the builder, one reaction at a time. */
  method GroupReactions(rs: seq<Reaction>, names: map<string, string>) returns (g: seq<Group>)
    ensures g == Grouped(rs, names)
  {
    g := [];
    for i := 0 to |rs|
      invariant g == Grouped(rs[..i], names)
    {
      assert rs[..i + 1][..i] == rs[..i];
      var user := ReactorName(names, rs[i].userId);
      var k := 0;
      while k < |g| && g[k].emoji != rs[i].emoji
        invariant 0 <= k <= |g|
        invariant forall m :: 0 <= m < k ==> g[m].emoji != rs[i].emoji
      {
        k := k + 1;
      }
      assert k == GroupIndex(g, rs[i].emoji);
      if k < |g| {
        g := g[k := Group(rs[i].emoji, g[k].users + [user])];
      } else {
        g := g + [Group(rs[i].emoji, [user])];
      }
    }
    assert rs[..|rs|] == rs;
  }

  // ---------------------------------------------------------------------------
  // Parts of one post

  /** `x?.trim()` followed by a truthiness test: the trimmed text when it is
      non-empty. */
  function TrimmedPart(x: Option<string>): (r: seq<string>)
    ensures |r| <= 1
    ensures |r| == 1 <==> x.Some? && Trim(x.value) != ""
    ensures |r| == 1 ==> r[0] == Trim(x.value)
  {
    if x.Some? && Trim(x.value) != "" then [Trim(x.value)] else []
  }

  /** The parts one attachment contributes: `🔔 title`, then its text. */
  function AttachmentPart(a: Attachment): seq<string>
  {
    (if TrimmedPart(a.title) != [] then ["\U{1F514} " + TrimmedPart(a.title)[0]] else [])
      + TrimmedPart(a.text)
  }

  function AttachmentParts(atts: seq<Attachment>): (r: seq<string>)
    ensures |r| <= 2 * |atts|
  {
    if |atts| == 0 then []
    else AttachmentParts(atts[..|atts| - 1]) + AttachmentPart(atts[|atts| - 1])
  }

  predicate IsAttachmentPost(p: ThreadPost)
  {
    p.postType == "slack_attachment" && p.attachments.Some?
  }

  /** `props.originalMessage ?? message`: an original message that is present,
      even an empty one, wins. */
  function MessageText(p: ThreadPost): string
  {
    if p.originalMessage.Some? then p.originalMessage.value else p.message
  }

  /** The parts of a post before its reactions: the attachment parts, or
      the trimmed message when there is one. */
  function BodyParts(p: ThreadPost): seq<string>
  {
    if IsAttachmentPost(p) then AttachmentParts(p.attachments.value)
    else if MessageText(p) != "" then [Trim(MessageText(p))] else []
  }

  function PostParts(p: ThreadPost, names: map<string, string>): seq<string>
  {
    BodyParts(p) + (if |p.reactions| > 0 then [ReactionText(Grouped(p.reactions, names))] else [])
  }

  /** The parts of a post: its attachment parts, or its trimmed message
      when that is non-empty, followed by one part for the reactions when
      there are any. */
  lemma PostPartsShape(p: ThreadPost, names: map<string, string>)
    ensures var r := PostParts(p, names);
      var reactions := if |p.reactions| > 0 then 1 else 0;
      (IsAttachmentPost(p) ==>
        |r| == |AttachmentParts(p.attachments.value)| + reactions
        && r[..|AttachmentParts(p.attachments.value)|] == AttachmentParts(p.attachments.value))
      && (!IsAttachmentPost(p) ==>
        |r| == (if MessageText(p) != "" then 1 else 0) + reactions
        && (MessageText(p) != "" ==> r[0] == Trim(MessageText(p))))
      && (|p.reactions| > 0 ==> r[|r| - 1] == ReactionText(Grouped(p.reactions, names)))
  {
  }

  /** The body of the attachment loop: the title part, then the text part. */
  method PartsOfAttachment(a: Attachment) returns (ps: seq<string>)
    ensures ps == AttachmentPart(a)
  {
    ps := [];
    var title := TrimmedPart(a.title);
    var text := TrimmedPart(a.text);
    if title != [] {
      ps := ps + ["\U{1F514} " + title[0]];
    }
    ps := ps + text;
  }

  /** The attachment loop: for each attachment, its title part then its text
      part, each only when non-empty after trimming. */
  method CollectAttachmentParts(atts: seq<Attachment>) returns (parts: seq<string>)
    ensures parts == AttachmentParts(atts)
  {
    parts := [];
    for i := 0 to |atts|
      invariant parts == AttachmentParts(atts[..i])
    {
      assert atts[..i + 1][..i] == atts[..i];
      var ps := PartsOfAttachment(atts[i]);
      parts := parts + ps;
    }
    assert atts[..|atts|] == atts;
  }

  /** The attachment loop, or the trimmed message. */
  method CollectBodyParts(p: ThreadPost) returns (parts: seq<string>)
    ensures parts == BodyParts(p)
  {
    if IsAttachmentPost(p) {
      parts := CollectAttachmentParts(p.attachments.value);
    } else {
      parts := [];
      var msg := MessageText(p);
      if msg != "" {
        parts := parts + [Trim(msg)];
      }
    }
  }

  /** The parts of one post, built the way the loop body builds them. */
  method BuildParts(p: ThreadPost, names: map<string, string>) returns (parts: seq<string>)
    ensures parts == PostParts(p, names)
  {
    parts := CollectBodyParts(p);
    if |p.reactions| > 0 {
      var grouped := GroupReactions(p.reactions, names);
      parts := parts + [ReactionText(grouped)];
    }
  }

  // ---------------------------------------------------------------------------
  // Messages

  /** The message for one post: assistant for the bot's own posts, otherwise a
      user message named after the author with the date in front. */
  function MessageOf(p: ThreadPost, meId: string, names: map<string, string>, formatDate: int -> string): ChatMessage
  {
    var full := JoinWith(PostParts(p, names), "\n\n");
    if p.userId == meId then Assistant(full)
    else User(NameOf(names, p.userId), formatDate(p.createAt) + " " + full)
  }

  /** The message builder for one thread's settings. */
  function Renderer(meId: string, names: map<string, string>, formatDate: int -> string): ThreadPost -> ChatMessage
  {
    p => MessageOf(p, meId, names, formatDate)
  }

  /** The instructions, then one rendered message per post of `window`. */
  function Conversation<T>(botInstructions: string, window: seq<T>, render: T -> ChatMessage): seq<ChatMessage>
  {
    [System(botInstructions)] + seq(|window|, i requires 0 <= i < |window| => render(window[i]))
  }

  /** The conversation for a thread: the instructions, then one message per
      post of the window. */
  function ChatMessages(posts: seq<ThreadPost>, botInstructions: string, meId: string, count: int,
                        names: map<string, string>, formatDate: int -> string): seq<ChatMessage>
  {
    Conversation(botInstructions, ContextWindow(posts, count), Renderer(meId, names, formatDate))
  }

  /** The loop body for one post: its parts, joined, in the message its
      author's role calls for. */
  method MessageFor(p: ThreadPost, meId: string, names: map<string, string>, formatDate: int -> string)
    returns (m: ChatMessage)
    ensures m == Renderer(meId, names, formatDate)(p)
  {
    var parts := BuildParts(p, names);
    var full := JoinWith(parts, "\n\n");
    if p.userId == meId {
      m := Assistant(full);
    } else {
      m := User(NameOf(names, p.userId), formatDate(p.createAt) + " " + full);
    }
  }

  /** Appending an item appends its rendered message. */
  lemma ConversationSnoc<T>(botInstructions: string, items: seq<T>, x: T, render: T -> ChatMessage)
    ensures Conversation(botInstructions, items + [x], render)
      == Conversation(botInstructions, items, render) + [render(x)]
  {
  }

  /** The conversation of a prefix one item longer has that item's message
      at the end. */
  lemma ConversationPrefixStep<T>(botInstructions: string, items: seq<T>, i: nat, render: T -> ChatMessage)
    requires i < |items|
    ensures Conversation(botInstructions, items[..i + 1], render)
      == Conversation(botInstructions, items[..i], render) + [render(items[i])]
  {
    assert items[..i + 1] == items[..i] + [items[i]];
    ConversationSnoc(botInstructions, items[..i], items[i], render);
  }

  /** `getChatMessagesByPosts`. */
  method GetChatMessagesByPosts(posts: seq<ThreadPost>, botInstructions: string, meId: string, count: int,
                                names: map<string, string>, formatDate: int -> string)
    returns (chat: seq<ChatMessage>)
    ensures chat == ChatMessages(posts, botInstructions, meId, count, names, formatDate)
  {
    var render := Renderer(meId, names, formatDate);
    chat := [System(botInstructions)];
    var window := ContextWindow(posts, count);
    assert chat == Conversation(botInstructions, window[..0], render);
    for i := 0 to |window|
      invariant chat == Conversation(botInstructions, window[..i], render)
    {
      var m := MessageFor(window[i], meId, names, formatDate);
      ConversationPrefixStep(botInstructions, window, i, render);
      chat := chat + [m];
    }
    assert window[..|window|] == window;
  }

  // ---------------------------------------------------------------------------
  // Properties of the conversation

  /** A conversation is the instructions followed by one rendered message
      per item, in order. */
  lemma ConversationFollows<T>(botInstructions: string, items: seq<T>, render: T -> ChatMessage)
    ensures var chat := Conversation(botInstructions, items, render);
      |chat| == 1 + |items|
      && chat[0] == System(botInstructions)
      && forall i :: 1 <= i <= |items| ==> chat[i] == render(items[i - 1])
  {
  }

  /** Without posts the conversation is the instructions alone, as the
      reminder sweep uses it. */
  lemma EmptyThreadIsInstructionsOnly(botInstructions: string, meId: string, count: int,
                                      names: map<string, string>, formatDate: int -> string)
    ensures ChatMessages([], botInstructions, meId, count, names, formatDate) == [System(botInstructions)]
  {
  }

  /** A count of zero does not empty the window: every post is used. */
  lemma ZeroCountKeepsWholeThread(posts: seq<ThreadPost>, botInstructions: string, meId: string,
                                  names: map<string, string>, formatDate: int -> string)
    ensures |ChatMessages(posts, botInstructions, meId, 0, names, formatDate)| == 1 + |posts|
  {
  }

  /** The role follows the author: only the bot's own posts become assistant
      messages, and no post becomes a system message. A user message is
      named after its author exactly when the author has a username, and its
      text starts with the post's date and a space. */
  lemma MessageRoles(p: ThreadPost, meId: string, names: map<string, string>, formatDate: int -> string)
    ensures var m := MessageOf(p, meId, names, formatDate);
      && !m.System?
      && (m.Assistant? <==> p.userId == meId)
      && (m.User? ==> (m.name.None? <==> p.userId !in names))
      && (m.User? && m.name.Some? ==> m.name.value == names[p.userId])
      && (m.User? ==> formatDate(p.createAt) + " " <= m.content)
  {
  }

  /** A plain post (no attachments, no reactions, some text) renders as its
      trimmed text: as it is for the bot, after the date for anyone else. */
  lemma PlainPostMessage(p: ThreadPost, meId: string, names: map<string, string>, formatDate: int -> string)
    requires !IsAttachmentPost(p) && |p.reactions| == 0 && MessageText(p) != ""
    ensures p.userId == meId ==> MessageOf(p, meId, names, formatDate) == Assistant(Trim(MessageText(p)))
    ensures p.userId != meId ==>
      MessageOf(p, meId, names, formatDate).content == formatDate(p.createAt) + " " + Trim(MessageText(p))
  {
    PostPartsShape(p, names);
  }

  /** No attachment part is empty: titles and texts are kept only when
      something remains after trimming. */
  lemma {:induction false} AttachmentPartsNonEmpty(atts: seq<Attachment>)
    ensures forall j :: 0 <= j < |AttachmentParts(atts)| ==> AttachmentParts(atts)[j] != ""
  {
    if |atts| > 0 {
      AttachmentPartsNonEmpty(atts[..|atts| - 1]);
      var a := atts[|atts| - 1];
      var t := TrimmedPart(a.title);
      var x := TrimmedPart(a.text);
      assert forall j :: 0 <= j < |x| ==> x[j] != "";
    }
  }
}
