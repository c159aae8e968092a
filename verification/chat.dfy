/**
 The chat store (`useChatStore`): an append-only message log, a flag saying
 an assistant reply is being typed, and the selected knowledge-base folder,
 which is also written through to the browser's session storage.

 Every store action is a pure transition on an immutable state. The random
 message id and the `Date` timestamp are supplied by the caller; the session
 storage is a map held beside the store state.
 */
module Chat {
  import opened Js

  datatype Role = User | Assistant

  /** What a caller hands to `addMessage`: a message without its id and timestamp. */
  datatype Draft = Draft(content: string, role: Role)

  /** A logged message; `timestamp` is the `Date` as milliseconds since the epoch. */
  datatype Message = Message(id: string, content: string, role: Role, timestamp: int)

  datatype ChatState = ChatState(messages: seq<Message>, isTyping: bool, selectedFolder: string)

  /** The browser's `sessionStorage`: string keys to string values. */
  type SessionStorage = map<string, string>

  /** The store together with the session storage it writes through to. */
  datatype Browser = Browser(chat: ChatState, storage: SessionStorage)

  const FolderKey: string := "selectedFolder"
  const DefaultFolder: string := "itg"

  /** The state the store is created with; creating it does not consult session storage. */
  function Initial(): (s: ChatState)
    ensures s.messages == []
    ensures !s.isTyping
    ensures s.selectedFolder == DefaultFolder
  {
    ChatState([], false, DefaultFolder)
  }

  /** `addMessage`: append `draft`, stamped with the given id and time, to the log. */
  function AddMessage(s: ChatState, draft: Draft, id: string, timestamp: int): (r: ChatState)
    ensures |r.messages| == |s.messages| + 1
    ensures r.messages[..|s.messages|] == s.messages
    ensures r.messages[|s.messages|].content == draft.content
    ensures r.messages[|s.messages|].role == draft.role
    ensures r.messages[|s.messages|].id == id
    ensures r.messages[|s.messages|].timestamp == timestamp
    ensures r.isTyping == s.isTyping && r.selectedFolder == s.selectedFolder
  {
    s.(messages := s.messages + [Message(id, draft.content, draft.role, timestamp)])
  }

  /** `setTyping`: overwrite the typing flag. */
  function SetTyping(s: ChatState, typing: bool): (r: ChatState)
    ensures r.isTyping == typing
    ensures r.messages == s.messages && r.selectedFolder == s.selectedFolder
  {
    s.(isTyping := typing)
  }

  /** How `sessionStorage.setItem` behaves: it stores the value, or throws (quota exceeded, storage disabled). */
  datatype StorageWrite = Written | WriteThrows(reason: Thrown)

  /** The browser after `setSelectedFolder`, and the exception it lets escape, if any. */
  datatype FolderChange = FolderChange(after: Browser, raised: Option<Thrown>)

  /**
   `setSelectedFolder`: write the folder to session storage first, then to
   the store. A throwing write escapes before the store is updated, so
   nothing changes at all.
   */
  function SetSelectedFolder(b: Browser, folder: string, write: StorageWrite): (r: FolderChange)
    ensures write.Written? ==> r.raised == None
    ensures write.Written? ==> r.after.storage == b.storage[FolderKey := folder]
    ensures write.Written? ==> r.after.chat.selectedFolder == folder
    ensures write.WriteThrows? ==> r.raised == Some(write.reason) && r.after == b
    ensures r.after.chat.messages == b.chat.messages
    ensures r.after.chat.isTyping == b.chat.isTyping
  {
    match write
    case WriteThrows(reason) => FolderChange(b, Some(reason))
    case Written =>
      var stored := b.storage[FolderKey := folder];
      FolderChange(Browser(b.chat.(selectedFolder := folder), stored), None)
  }

  /** The in-memory folder is the one session storage holds under `FolderKey`. */
  predicate FolderPersisted(b: Browser) {
    FolderKey in b.storage && b.storage[FolderKey] == b.chat.selectedFolder
  }

  /** Timestamps never decrease along the log. */
  predicate Chronological(messages: seq<Message>) {
    forall i, j :: 0 <= i < j < |messages| ==> messages[i].timestamp <= messages[j].timestamp
  }

  /** No two logged messages share an id. */
  predicate DistinctIds(messages: seq<Message>) {
    forall i, j :: 0 <= i < j < |messages| ==> messages[i].id != messages[j].id
  }
}
