/** The Anthropic request (app/services/llm/claude_adapter.py) and split_system
    (app/services/llm/base.py): system texts apart, neighbours of one role merged. */
module ClaudeTurns {
  import opened Wrappers
  import opened ChatMessages

  /** A prompt item: a message, a plain dictionary, or something the loop ignores. */
  datatype Item = Item(message: ChatMessage) | Dictionary(role: Option<string>, content: Option<string>) | Other

  datatype Block = ImageBlock(mime: string, data: string) | FileBlock(content: string) | TextBlock(text: string)

  datatype Side = User | Assistant

  datatype Turn = Turn(side: Side, content: seq<Block>)

  // --- split_system -----------------------------------------------------

  function ToMessage(item: Item): Option<ChatMessage> {
    match item
    case Item(message) => Some(message)
    case Dictionary(role, content) => Some(ChatMessage(role.GetOr("user"), content.GetOr(""), []))
    case Other => None
  }

  predicate IsSystem(item: Item) {
    ToMessage(item).Some? && ToMessage(item).value.role == "system"
  }

  predicate IsConversation(item: Item) {
    ToMessage(item).Some? && !IsSystem(item)
    && (ToMessage(item).value.text != "" || ToMessage(item).value.attachments != [])
  }

  function SystemTexts(items: seq<Item>): seq<string> {
    if items == [] then []
    else
      var last := items[|items| - 1];
      SystemTexts(items[..|items| - 1])
      + if IsSystem(last) && ToMessage(last).value.text != "" then [ToMessage(last).value.text] else []
  }

  function Conversation(items: seq<Item>): seq<ChatMessage> {
    if items == [] then []
    else
      var last := items[|items| - 1];
      Conversation(items[..|items| - 1]) + if IsConversation(last) then [ToMessage(last).value] else []
  }

  /** The platform prompt comes first, then every system text in order; the rest keeps
      its order, without the messages that have neither text nor attachment. */
  method SplitSystem(prompt: seq<Item>, systemPrompt: Option<string>)
    returns (systemChunks: seq<string>, messages: seq<ChatMessage>)
    ensures systemChunks
         == (if systemPrompt.GetOr("") != "" then [systemPrompt.GetOr("")] else []) + SystemTexts(prompt)
    ensures messages == Conversation(prompt)
    ensures forall m :: m in messages ==> m.role != "system" && Blocks(m) != []
  {
    systemChunks := [];
    if systemPrompt.Some? && systemPrompt.value != "" {
      systemChunks := systemChunks + [systemPrompt.value];
    }
    ghost var first := systemChunks;
    messages := [];
    for i := 0 to |prompt|
      invariant systemChunks == first + SystemTexts(prompt[..i])
      invariant messages == Conversation(prompt[..i])
      invariant forall m :: m in messages ==> m.role != "system" && (m.text != "" || m.attachments != [])
    {
      assert prompt[..i + 1][..i] == prompt[..i];
      var message := ToMessage(prompt[i]);
      if message.Some? {
        if message.value.role == "system" {
          if message.value.text != "" {
            systemChunks := systemChunks + [message.value.text];
          }
        } else if message.value.text != "" || message.value.attachments != [] {
          messages := messages + [message.value];
        }
      }
    }
    assert prompt[..|prompt|] == prompt;
  }

  /** Nothing that the provider should see is dropped: every system text is among the chunks,
      and every other message with a text or a file is in the conversation, a dictionary
      without a role as the user's. */
  lemma {:induction false} EveryItemIsKept(items: seq<Item>, k: nat)
    requires k < |items|
    ensures items[k].Item? && items[k].message.role == "system" && items[k].message.text != ""
            ==> items[k].message.text in SystemTexts(items)
    ensures items[k].Item? && items[k].message.role != "system" && (items[k].message.text != "" || items[k].message.attachments != [])
            ==> items[k].message in Conversation(items)
    ensures items[k].Dictionary? && items[k].role.None? && items[k].content.Some? && items[k].content.value != ""
            ==> ChatMessage("user", items[k].content.value, []) in Conversation(items)
  {
    var n := |items| - 1;
    if k < n {
      EveryItemIsKept(items[..n], k);
    }
  }

  // --- _blocks ----------------------------------------------------------

  function AttachmentBlock(a: Attachment): Block {
    match a
    case ImageFile(content, mime) =>
      ImageBlock(if mime.GetOr("") != "" then mime.GetOr("") else "image/jpeg", content)
    case TextFile(content) => FileBlock(content)
  }

  function AttachmentBlocks(attachments: seq<Attachment>): (blocks: seq<Block>)
    ensures |blocks| == |attachments|
  {
    if attachments == [] then []
    else AttachmentBlocks(attachments[..|attachments| - 1]) + [AttachmentBlock(attachments[|attachments| - 1])]
  }

  function Blocks(m: ChatMessage): seq<Block> {
    AttachmentBlocks(m.attachments) + if m.text != "" then [TextBlock(m.text)] else []
  }

  method BuildBlocks(m: ChatMessage) returns (blocks: seq<Block>)
    ensures blocks == Blocks(m)
  {
    blocks := [];
    for i := 0 to |m.attachments|
      invariant blocks == AttachmentBlocks(m.attachments[..i])
    {
      assert m.attachments[..i + 1][..i] == m.attachments[..i];
      blocks := blocks + [AttachmentBlock(m.attachments[i])];
    }
    assert m.attachments[..|m.attachments|] == m.attachments;
    if m.text != "" {
      blocks := blocks + [TextBlock(m.text)];
    }
  }

  // --- merging ----------------------------------------------------------

  function SideOf(m: ChatMessage): Side {
    if m.role == "ai" || m.role == "assistant" then Assistant else User
  }

  /** Each block with the side it is said by. */
  function Tagged(side: Side, blocks: seq<Block>): seq<(Side, Block)> {
    seq(|blocks|, i requires 0 <= i < |blocks| => (side, blocks[i]))
  }

  function Said(messages: seq<ChatMessage>): seq<(Side, Block)> {
    if messages == [] then []
    else
      var last := messages[|messages| - 1];
      Said(messages[..|messages| - 1]) + Tagged(SideOf(last), Blocks(last))
  }

  function Flatten(turns: seq<Turn>): seq<(Side, Block)> {
    if turns == [] then []
    else
      var last := turns[|turns| - 1];
      Flatten(turns[..|turns| - 1]) + Tagged(last.side, last.content)
  }

  /** What the Messages API demands. */
  ghost predicate Alternating(turns: seq<Turn>) {
    && (forall i :: 0 <= i < |turns| ==> turns[i].content != [])
    && (forall i :: 0 <= i < |turns| - 1 ==> turns[i].side != turns[i + 1].side)
  }

  lemma {:induction false} ExtendingTheLastTurn(turns: seq<Turn>, blocks: seq<Block>)
    requires turns != [] && Alternating(turns)
    ensures var n := |turns| - 1;
            var turns' := turns[n := Turn(turns[n].side, turns[n].content + blocks)];
            Alternating(turns') && Flatten(turns') == Flatten(turns) + Tagged(turns[n].side, blocks)
  {
    var n := |turns| - 1;
    var turns' := turns[n := Turn(turns[n].side, turns[n].content + blocks)];
    assert turns'[..n] == turns[..n];
    assert Tagged(turns[n].side, turns[n].content + blocks) == Tagged(turns[n].side, turns[n].content) + Tagged(turns[n].side, blocks);
  }

  lemma {:induction false} OpeningATurn(turns: seq<Turn>, side: Side, blocks: seq<Block>)
    requires Alternating(turns) && blocks != [] && (turns != [] ==> turns[|turns| - 1].side != side)
    ensures Alternating(turns + [Turn(side, blocks)])
    ensures Flatten(turns + [Turn(side, blocks)]) == Flatten(turns) + Tagged(side, blocks)
  {
    assert (turns + [Turn(side, blocks)])[..|turns|] == turns;
  }

  /** The merging loop of _request: alternating, non-empty turns that say exactly what
      the messages say, in order and on the same sides. */
  method MergeTurns(messages: seq<ChatMessage>) returns (turns: seq<Turn>)
    ensures Alternating(turns)
    ensures Flatten(turns) == Said(messages)
  {
    turns := [];
    for i := 0 to |messages|
      invariant Alternating(turns)
      invariant Flatten(turns) == Said(messages[..i])
    {
      assert messages[..i + 1][..i] == messages[..i];
      var side := SideOf(messages[i]);
      var blocks := BuildBlocks(messages[i]);
      if blocks != [] {
        if turns != [] && turns[|turns| - 1].side == side {
          ExtendingTheLastTurn(turns, blocks);
          turns := turns[|turns| - 1 := Turn(side, turns[|turns| - 1].content + blocks)];
        } else {
          OpeningATurn(turns, side, blocks);
          turns := turns + [Turn(side, blocks)];
        }
      }
    }
    assert messages[..|messages|] == messages;
  }

  /** The block carries the attachment: an image as an image, by its own type if it has one,
      and a text file as a file. */
  predicate Carries(block: Block, a: Attachment) {
    && block.ImageBlock? == a.ImageFile?
    && block.FileBlock? == a.TextFile?
    && (a.TextFile? ==> block.content == a.content)
    && (a.ImageFile? ==> block.data == a.content && (a.mime.Some? && a.mime.value != "" ==> block.mime == a.mime.value)
                         && (a.mime.None? || a.mime.value == "" ==> block.mime == "image/jpeg"))
  }

  lemma {:induction false} BlocksCarryTheMessage(m: ChatMessage)
    ensures |AttachmentBlocks(m.attachments)| == |m.attachments|
    ensures forall k :: 0 <= k < |m.attachments| ==> Carries(AttachmentBlocks(m.attachments)[k], m.attachments[k])
    ensures Blocks(m)[..|m.attachments|] == AttachmentBlocks(m.attachments)
    ensures Blocks(m)[|m.attachments|..] == if m.text == "" then [] else [TextBlock(m.text)]
    decreases |m.attachments|
  {
    if m.attachments != [] {
      BlocksCarryTheMessage(m.(attachments := m.attachments[..|m.attachments| - 1]));
    }
  }

  /** Every block of every message is said, and on its own side: by the assistant if the message
      is the assistant's, by the user otherwise. */
  lemma {:induction false} EveryBlockIsSaid(messages: seq<ChatMessage>, i: nat, k: nat)
    requires i < |messages| && k < |Blocks(messages[i])|
    ensures (if messages[i].role == "assistant" || messages[i].role == "ai" then Side.Assistant else Side.User, Blocks(messages[i])[k]) in Said(messages)
  {
    var n := |messages| - 1;
    if i < n {
      EveryBlockIsSaid(messages[..n], i, k);
    } else {
      var tagged := Tagged(SideOf(messages[n]), Blocks(messages[n]));
      assert tagged[k] in tagged;
    }
  }

  // --- the specification determines the result --------------------------

  lemma {:induction false} FlattenIsEmptyOnlyForNoTurns(turns: seq<Turn>)
    requires Alternating(turns)
    ensures Flatten(turns) == [] <==> turns == []
  {
    if turns != [] {
      assert turns[|turns| - 1].content != [];
    }
  }

  /** The last turn is the longest run of its side at the end of what is said. */
  lemma {:induction false} LastTurnIsTheLastRun(turns: seq<Turn>)
    requires turns != [] && Alternating(turns)
    ensures var said, n, last := Flatten(turns), |Flatten(turns)|, turns[|turns| - 1];
            && |last.content| <= n
            && (forall k :: n - |last.content| <= k < n ==> said[k] == (last.side, last.content[k - (n - |last.content|)]))
            && (n > |last.content| ==> said[n - |last.content| - 1].0 != last.side)
  {
    var m := |turns| - 1;
    var last := turns[m];
    assert Flatten(turns) == Flatten(turns[..m]) + Tagged(last.side, last.content);
    if m > 0 {
      var previous := turns[m - 1];
      assert turns[..m][m - 1] == previous && previous.content != [];
      assert Flatten(turns[..m]) == Flatten(turns[..m][..m - 1]) + Tagged(previous.side, previous.content);
    }
  }

  /** Two alternating lists of non-empty turns that say the same are the same list, so
      MergeTurns can return only one value. */
  lemma {:induction false} MergedTurnsAreUnique(a: seq<Turn>, b: seq<Turn>)
    requires Alternating(a) && Alternating(b) && Flatten(a) == Flatten(b)
    ensures a == b
    decreases |a|
  {
    FlattenIsEmptyOnlyForNoTurns(a);
    FlattenIsEmptyOnlyForNoTurns(b);
    if a != [] {
      var m, n := |a| - 1, |b| - 1;
      LastTurnsAgree(a, b);
      WithoutTheLast(a);
      WithoutTheLast(b);
      MergedTurnsAreUnique(a[..m], b[..n]);
      assert a == a[..m] + [a[m]] && b == b[..n] + [b[n]];
    }
  }

  lemma {:induction false} WithoutTheLast(turns: seq<Turn>)
    requires turns != [] && Alternating(turns)
    ensures var m := |turns| - 1;
            && Alternating(turns[..m]) && |turns[m].content| <= |Flatten(turns)|
            && Flatten(turns[..m]) == Flatten(turns)[..|Flatten(turns)| - |turns[m].content|]
  {
    var m := |turns| - 1;
    assert Flatten(turns) == Flatten(turns[..m]) + Tagged(turns[m].side, turns[m].content);
  }

  lemma {:induction false} LastTurnsAgree(a: seq<Turn>, b: seq<Turn>)
    requires a != [] && b != [] && Alternating(a) && Alternating(b) && Flatten(a) == Flatten(b)
    ensures a[|a| - 1] == b[|b| - 1]
  {
    LastTurnIsTheLastRun(a);
    LastTurnIsTheLastRun(b);
    var said, x, y := Flatten(a), a[|a| - 1], b[|b| - 1];
    var n := |said|;
    assert x.content != [] && y.content != [];
    assert said[n - 1].0 == x.side && said[n - 1].0 == y.side;
    assert |y.content| <= |x.content|;
    assert |x.content| <= |y.content|;
    forall i | 0 <= i < |x.content|
      ensures x.content[i] == y.content[i]
    {
      assert said[n - |x.content| + i] == (x.side, x.content[i]);
      assert said[n - |x.content| + i] == (y.side, y.content[i]);
    }
  }
}
