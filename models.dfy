/** Record types shared by the store, the views and the engine (src/models.py). */
module Models {
  import opened Wrappers

  /** A row of the `chats` table: id, creation time (as stored text), title. */
  datatype ChatHeader = ChatHeader(id: int, created: string, title: string)

  /** A row of the `chat_history` table. `id` is the owning chat, NULL (`None`) when the
      row was written while no conversation was current; `visible` is 0 for hidden. */
  datatype ChatItem = ChatItem(id: Option<int>, created: string, role: string, message: string, visible: int)

  /** An entry of a model-facing message list: `{"role": ..., "content": ...}`. */
  datatype Message = Message(role: string, content: string)

  /** The finalised result of one streamed reply. */
  datatype ModelResponse = ModelResponse(thoughts: string, content: string)
}
