/**
 * The page's handlers and their effect on the transcript: sending a chat
 * message, setting a system message, clearing the chat and deleting all
 * data. Rendering is left out; what is kept of the page is the text in the
 * input box and whether input is enabled.
 */
module Client {
  import opened Wrappers
  import opened Bounds
  import opened Text
  import opened Messages
  import opened Storage
  import opened MessageStore

  /**
   * How one `fetch` turned out, as far as the handler looks at it: the
   * server answered with a status and, for `/chat`, the `response` text of
   * its JSON body; or the call threw, with this error message.
   */
  datatype Fetched = Answered(status: nat, response: string) | Rejected(message: string)

  /** `response.ok`. */
  predicate IsOk(status: nat)
  {
    200 <= status <= 299
  }

  /** The values `Date.now()` and `crypto.randomUUID()` give for one new entry. */
  datatype Stamp = Stamp(timestamp: int, id: string)

  function Entry(role: Role, content: string, stamp: Stamp): Message
  {
    Message(role, content, stamp.timestamp, Some(stamp.id))
  }

  const ERROR_PREFIX := "Error: "

  /**
   * The entry `sendMessage` adds once the request is over: the reply as an
   * `agent` entry, or a `system` entry describing the failure.
   */
  function ReplyEntry(f: Fetched, stamp: Stamp): (m: Message)
    ensures m.timestamp == stamp.timestamp && m.id == Some(stamp.id)
    ensures m.role == Agent <==> f.Answered? && IsOk(f.status)
    ensures m.role == Agent ==> m.content == f.response
    ensures m.role != Agent ==>
              (m.role == System && |m.content| >= |ERROR_PREFIX|
               && m.content[..|ERROR_PREFIX|] == ERROR_PREFIX)
    ensures f.Answered? && !IsOk(f.status) ==>
              m.content == ERROR_PREFIX + "Server responded with status: " + NatToString(f.status)
    ensures f.Rejected? ==> m.content == ERROR_PREFIX + f.message
  {
    match f
    case Answered(status, response) =>
      if IsOk(status) then Entry(Agent, response, stamp)
      else Entry(System, ERROR_PREFIX + "Server responded with status: " + NatToString(status), stamp)
    case Rejected(message) => Entry(System, ERROR_PREFIX + message, stamp)
  }

  /**
   * The transcript after `sendMessage` with input `text` that is not blank.
   * Whatever the store had to drop, the newest entry is the outcome.
   */
  function SendTranscript(ms: seq<Message>, text: string, f: Fetched, userStamp: Stamp,
                          replyStamp: Stamp, limits: StoreLimits): (r: seq<Message>)
    ensures |r| <= MAX_MESSAGES
    ensures r == [] || r[0] == ReplyEntry(f, replyStamp)
  {
    var afterUser := Retained(Prepended(ms, Entry(User, text, userStamp)), limits);
    Retained(Prepended(afterUser, ReplyEntry(f, replyStamp)), limits)
  }

  const INSTRUCTION_PREFIX := "System Instruction: "
  const SET_FAILED := "Failed to set system message"

  /** The entry the system-message button adds for the (untrimmed) text it was given. */
  function InstructionEntry(text: string, f: Fetched, stamp: Stamp): (m: Message)
    ensures m.role == System
    ensures f.Answered? && IsOk(f.status) ==> m.content == INSTRUCTION_PREFIX + text
    ensures f.Answered? && !IsOk(f.status) ==> m.content == ERROR_PREFIX + SET_FAILED + " - " + SET_FAILED
    ensures f.Rejected? ==> m.content == ERROR_PREFIX + SET_FAILED + " - " + f.message
  {
    match f
    case Answered(status, _) =>
      if IsOk(status) then Entry(System, INSTRUCTION_PREFIX + text, stamp)
      else Entry(System, ERROR_PREFIX + SET_FAILED + " - " + SET_FAILED, stamp)
    case Rejected(message) => Entry(System, ERROR_PREFIX + SET_FAILED + " - " + message, stamp)
  }

  class ChatClient {
    /** The text in the message box. */
    var input: string
    /** Whether the message box and the send button accept input. */
    var inputEnabled: bool
    const manager: MessageManager

    /** Between handlers the transcript is within its cap and input is enabled. */
    ghost predicate Valid()
      reads this, manager
    {
      manager.Valid() && inputEnabled
    }

    constructor (manager: MessageManager)
      requires manager.Valid()
      ensures this.manager == manager && input == "" && inputEnabled
      ensures Valid()
    {
      this.manager := manager;
      input := "";
      inputEnabled := true;
    }

    /** `sendMessage`: blank input is ignored; otherwise the turn and its outcome are recorded. */
    method SendMessage(f: Fetched, userStamp: Stamp, replyStamp: Stamp)
      requires Valid()
      modifies this, manager, manager.storage
      ensures Valid()
      ensures Blank(old(input)) ==>
                && input == old(input) && inputEnabled == old(inputEnabled)
                && manager.messages == old(manager.messages)
                && manager.storage.items == old(manager.storage.items)
      ensures !Blank(old(input)) ==>
                && input == "" && inputEnabled
                && manager.messages == SendTranscript(old(manager.messages), Trim(old(input)), f,
                                                      userStamp, replyStamp, manager.storage.limits)
                && manager.storage.items == Saved(old(manager.storage.items), manager.storageKey,
                                                  manager.messages, manager.storage.limits)
    {
      var message := Trim(input);
      if message == [] {
        return;
      }
      inputEnabled := false;
      RecordTurn(message, f, userStamp, replyStamp);
      inputEnabled := true;
    }

    /** The user's entry, then the outcome's; the box is emptied in between. */
    method RecordTurn(message: string, f: Fetched, userStamp: Stamp, replyStamp: Stamp)
      modifies this, manager, manager.storage
      ensures input == "" && inputEnabled == old(inputEnabled)
      ensures manager.messages == SendTranscript(old(manager.messages), message, f,
                                                 userStamp, replyStamp, manager.storage.limits)
      ensures manager.storage.items == Saved(old(manager.storage.items), manager.storageKey,
                                             manager.messages, manager.storage.limits)
    {
      ghost var items := manager.storage.items;
      var _ := manager.AddMessage(User, message, userStamp.timestamp, userStamp.id);
      ghost var afterUser := manager.messages;
      input := "";
      var reply := ReplyEntry(f, replyStamp);
      var _ := manager.AddMessage(reply.role, reply.content, replyStamp.timestamp, replyStamp.id);
      SavedTwice(items, manager.storageKey, afterUser, manager.messages, manager.storage.limits);
    }

    /**
     * The system-message button: `prompted` is what `prompt` returned (none
     * when cancelled). Blank text is ignored.
     */
    method SetSystemMessage(prompted: Option<string>, f: Fetched, stamp: Stamp)
      requires Valid()
      modifies this, manager, manager.storage
      ensures Valid()
      ensures input == old(input)
      ensures (prompted.None? || Blank(prompted.value)) ==>
                && inputEnabled == old(inputEnabled)
                && manager.messages == old(manager.messages)
                && manager.storage.items == old(manager.storage.items)
      ensures (prompted.Some? && !Blank(prompted.value)) ==>
                && inputEnabled
                && manager.messages == Retained(Prepended(old(manager.messages),
                                                          InstructionEntry(prompted.value, f, stamp)),
                                                manager.storage.limits)
                && manager.storage.items == Saved(old(manager.storage.items), manager.storageKey,
                                                  manager.messages, manager.storage.limits)
    {
      if prompted.Some? && !Blank(prompted.value) {
        RecordInstruction(prompted.value, f, stamp);
      }
    }

    /**
     * Adds and saves the entry the system-message button makes for `text`,
     * with input disabled while the request is out.
     */
    method RecordInstruction(text: string, f: Fetched, stamp: Stamp)
      requires Valid()
      modifies this, manager, manager.storage
      ensures Valid()
      ensures input == old(input)
      ensures manager.messages == Retained(Prepended(old(manager.messages), InstructionEntry(text, f, stamp)),
                                           manager.storage.limits)
      ensures manager.storage.items == Saved(old(manager.storage.items), manager.storageKey,
                                             manager.messages, manager.storage.limits)
    {
      inputEnabled := false;
      var entry := InstructionEntry(text, f, stamp);
      var _ := manager.AddMessage(entry.role, entry.content, stamp.timestamp, stamp.id);
      inputEnabled := true;
    }

    /**
     * `clearChat`: once the server call has been made (whatever its status)
     * the box and the transcript are emptied; if the call threw, an error
     * entry is added instead.
     */
    method ClearChat(f: Fetched, stamp: Stamp)
      requires Valid()
      modifies this, manager, manager.storage
      ensures Valid()
      ensures inputEnabled == old(inputEnabled)
      ensures f.Answered? ==>
                && input == "" && manager.messages == []
                && manager.storage.items == Saved(old(manager.storage.items), manager.storageKey, [],
                                                  manager.storage.limits)
      ensures f.Rejected? ==>
                && input == old(input)
                && manager.messages == Retained(Prepended(old(manager.messages),
                                                          Entry(System, ERROR_PREFIX + "Failed to clear chat history", stamp)),
                                                manager.storage.limits)
                && manager.storage.items == Saved(old(manager.storage.items), manager.storageKey,
                                                  manager.messages, manager.storage.limits)
    {
      if f.Answered? {
        input := "";
        manager.ClearMessages();
      } else {
        var _ := manager.AddMessage(System, ERROR_PREFIX + "Failed to clear chat history", stamp.timestamp, stamp.id);
      }
    }

    /** `deleteAll`: hands over to the store. */
    method DeleteAll()
      requires Valid()
      modifies manager, manager.storage
      ensures Valid()
      ensures manager.storage.limits.blocked ==>
                manager.messages == old(manager.messages) && manager.storage.items == old(manager.storage.items)
      ensures !manager.storage.limits.blocked ==>
                manager.messages == [] && manager.storage.items == old(manager.storage.items) - {manager.storageKey}
    {
      manager.DeleteAllData();
    }
  }

  // ------------------------------------------------------------- properties

  /**
   * With room in the store, a send adds exactly two entries on top of the
   * old transcript: the user's trimmed text, then the reply or the error.
   */
  lemma SendWithRoom(ms: seq<Message>, text: string, f: Fetched, userStamp: Stamp,
                     replyStamp: Stamp, limits: StoreLimits)
    requires var afterUser := Prepended(ms, Entry(User, text, userStamp));
             limits.blocked || (Fits(afterUser, limits)
                                && Fits(Prepended(afterUser, ReplyEntry(f, replyStamp)), limits))
    ensures var r := SendTranscript(ms, text, f, userStamp, replyStamp, limits);
            && |r| == Min(|ms| + 2, MAX_MESSAGES)
            && r[0] == ReplyEntry(f, replyStamp)
            && r[1] == Entry(User, text, userStamp)
            && r[2..] == ms[..|r| - 2]
  {
    var u := Prepended(ms, Entry(User, text, userStamp));
    var r := Prepended(u, ReplyEntry(f, replyStamp));
    assert r[1..][0] == u[0];
    assert r[2..] == u[1..][..|r| - 2];
  }
}
