/** The conversation log: an append-only list of `{role, content}` entries. */
module ChatLog {

  /** One `{"role": ..., "content": ...}` entry. */
  datatype Message = Message(role: string, content: string)

  const UserRole := "user"
  const AssistantRole := "assistant"

  /** `ChatHistory`: a list the owner appends to and resets. */
  class ChatHistory {
    var messages: seq<Message>

    /** A new history is empty. */
    constructor ()
      ensures messages == []
    {
      messages := [];
    }

    /** Appends exactly one entry at the end; earlier entries stay as they were. */
    method AddMessage(role: string, content: string)
      modifies this
      ensures messages == old(messages) + [Message(role, content)]
    {
      messages := messages + [Message(role, content)];
    }

    /** All entries, in the order they were added. */
    method GetMessages() returns (all: seq<Message>)
      ensures all == messages
    {
      all := messages;
    }

    /** Afterwards the history is empty. */
    method Clear()
      modifies this
      ensures messages == []
    {
      messages := [];
    }
  }
}
