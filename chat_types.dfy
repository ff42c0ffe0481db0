/** The records the chat page works on: stored messages, outbound role/content
    turns and prompt-template entries. */
module ChatTypes {
  import opened Wrappers
  import opened Seqs

  /** The role of an outbound turn or a template entry. */
  datatype Role = System | User | Assistant

  /** Who wrote a stored message: the user or the assistant, never the system. */
  type Source = r: Role | r != System witness User

  /** A message of the conversation log (`MessageItemType`). Times (`id`, `date`)
      are clock readings in milliseconds; the greeting has no `date`. An absent
      `docs` / `docHashes` is the empty list, an absent flag is `false` and an
      absent token count is 0: every use of them treats the two alike. */
  datatype Message = Message(
    source: Source,
    content: string,
    checked: bool,
    id: int,
    date: Option<int>,
    isChild: bool,
    scrollToBottom: bool,
    tokens: int,
    docId: Option<string>,
    docs: seq<string>,
    docHashes: seq<string>)

  /** One `{role, content}` entry of a chat-completion request. */
  datatype Turn = Turn(role: Role, content: string)

  /** An entry of a prompt template: the `"your"` marker where the live
      conversation is spliced in, or a fixed turn. */
  datatype TemplateEntry = Your | Entry(role: Role, prompt: string)

  predicate IsMarker(e: TemplateEntry)
  {
    e.Your?
  }

  /** How many `"your"` markers a template holds. */
  function MarkerCount(template: seq<TemplateEntry>): nat
  {
    |Filter(template, IsMarker)|
  }

  /** The content an assistant message holds until its first streamed token. */
  const PlaceholderText := "..."

  predicate IsPlaceholder(m: Message)
  {
    m.source == Assistant && m.content == PlaceholderText
  }

  /** A message's document reference is set and non-empty (JavaScript truthiness). */
  predicate HasDocRef(m: Message)
  {
    m.docId.Some? && m.docId.value != ""
  }

  predicate IsChecked(m: Message)
  {
    m.checked
  }

  /** The `checked` messages, in log order (`messages.filter(v => v.checked)`). */
  function CheckedMessages(msgs: seq<Message>): seq<Message>
  {
    Filter(msgs, IsChecked)
  }
}
