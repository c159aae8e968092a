/**
 Properties of the chat store over single actions and over any sequence of
 them: what each action leaves alone, which ones commute, and what a whole
 history of actions does to the log, the typing flag and the folder.
 */
module ChatHistory {
  import opened Chat

  /** One call into the store, with the inputs the environment supplies. */
  datatype Action =
    | Add(draft: Draft, id: string, timestamp: int)
    | Typing(typing: bool)
    | SelectFolder(folder: string, write: StorageWrite)

  /** The browser after one action (an exception from `setSelectedFolder` reaches the caller; the state is what remains). */
  function Dispatch(b: Browser, a: Action): Browser {
    match a
    case Add(draft, id, timestamp) => b.(chat := AddMessage(b.chat, draft, id, timestamp))
    case Typing(typing) => b.(chat := SetTyping(b.chat, typing))
    case SelectFolder(folder, write) => SetSelectedFolder(b, folder, write).after
  }

  /** The browser after the actions, in order. */
  function Replay(b: Browser, actions: seq<Action>): Browser
    decreases |actions|
  {
    if actions == [] then b else Replay(Dispatch(b, actions[0]), actions[1..])
  }

  /** The role and content of each message: what the conversation says, without ids and times. */
  function Transcript(messages: seq<Message>): (t: seq<Draft>)
    ensures |t| == |messages|
    ensures forall i :: 0 <= i < |messages| ==> t[i] == Draft(messages[i].content, messages[i].role)
  {
    if messages == [] then [] else [Draft(messages[0].content, messages[0].role)] + Transcript(messages[1..])
  }

  /** The drafts of the `Add` actions, in order. */
  function Drafts(actions: seq<Action>): seq<Draft>
    decreases |actions|
  {
    if actions == [] then []
    else (if actions[0].Add? then [actions[0].draft] else []) + Drafts(actions[1..])
  }

  /** The flag the last `Typing` action sets, or `current` when there is none. */
  function LastTyping(actions: seq<Action>, current: bool): bool
    decreases |actions|
  {
    if actions == [] then current
    else LastTyping(actions[1..], if actions[0].Typing? then actions[0].typing else current)
  }

  /** The folder of the last `SelectFolder` whose storage write succeeded, or `current` when there is none. */
  function LastStoredFolder(actions: seq<Action>, current: string): string
    decreases |actions|
  {
    if actions == [] then current
    else
      var a := actions[0];
      LastStoredFolder(actions[1..], if a.SelectFolder? && a.write.Written? then a.folder else current)
  }

  // ----- single actions -----

  /** Setting the typing flag twice is setting it to the second value; in particular it is idempotent. */
  lemma SetTypingLastWriteWins(s: ChatState, first: bool, second: bool)
    ensures SetTyping(SetTyping(s, first), second) == SetTyping(s, second)
    ensures SetTyping(SetTyping(s, second), second) == SetTyping(s, second)
  {
  }

  /** Appending a message and setting the typing flag touch disjoint fields, so their order does not matter. */
  lemma AddMessageCommutesWithSetTyping(s: ChatState, draft: Draft, id: string, timestamp: int, typing: bool)
    ensures SetTyping(AddMessage(s, draft, id, timestamp), typing)
         == AddMessage(SetTyping(s, typing), draft, id, timestamp)
  {
  }

  /** A successful folder change makes storage and store agree; a failed one keeps whatever agreement there was. */
  lemma SetSelectedFolderPersists(b: Browser, folder: string, write: StorageWrite)
    ensures write.Written? ==> FolderPersisted(SetSelectedFolder(b, folder, write).after)
    ensures write.WriteThrows? ==> (FolderPersisted(SetSelectedFolder(b, folder, write).after) <==> FolderPersisted(b))
  {
  }

  /** The log stays in time order exactly when it was and the new message is no older than the last one. */
  lemma AddMessageChronological(s: ChatState, draft: Draft, id: string, timestamp: int)
    ensures Chronological(AddMessage(s, draft, id, timestamp).messages)
        <==> Chronological(s.messages)
             && (|s.messages| == 0 || s.messages[|s.messages| - 1].timestamp <= timestamp)
  {
  }

  /** Ids stay pairwise distinct exactly when they were and the supplied id is new to the log. */
  lemma AddMessageDistinctIds(s: ChatState, draft: Draft, id: string, timestamp: int)
    ensures DistinctIds(AddMessage(s, draft, id, timestamp).messages)
        <==> DistinctIds(s.messages) && forall i :: 0 <= i < |s.messages| ==> s.messages[i].id != id
  {
  }

  // ----- histories -----

  /** Over any history the old log is kept as a prefix, and the log grows by one per `Add` action. */
  lemma {:induction false} ReplayKeepsLogPrefix(b: Browser, actions: seq<Action>)
    ensures |Replay(b, actions).chat.messages| == |b.chat.messages| + |Drafts(actions)|
    ensures Replay(b, actions).chat.messages[..|b.chat.messages|] == b.chat.messages
    decreases |actions|
  {
    if actions != [] {
      var next := Dispatch(b, actions[0]);
      ReplayKeepsLogPrefix(next, actions[1..]);
      var head := if actions[0].Add? then [actions[0].draft] else [];
      assert Drafts(actions) == head + Drafts(actions[1..]);
      var final := Replay(b, actions).chat.messages;
      assert final[..|next.chat.messages|] == next.chat.messages;
      assert next.chat.messages[..|b.chat.messages|] == b.chat.messages;
      assert final[..|b.chat.messages|] == final[..|next.chat.messages|][..|b.chat.messages|];
    }
  }

  /** Over any history the messages added say exactly what the drafts of the `Add` actions say, in order. */
  lemma {:induction false} ReplayTranscript(b: Browser, actions: seq<Action>)
    ensures Transcript(Replay(b, actions).chat.messages) == Transcript(b.chat.messages) + Drafts(actions)
    decreases |actions|
  {
    if actions != [] {
      var next := Dispatch(b, actions[0]);
      ReplayTranscript(next, actions[1..]);
      var head := if actions[0].Add? then [actions[0].draft] else [];
      assert Drafts(actions) == head + Drafts(actions[1..]);
      assert Transcript(next.chat.messages) == Transcript(b.chat.messages) + head;
    }
  }

  /**
   Over any history the old log is kept as a prefix, and the messages added
   are exactly the drafts of the `Add` actions, in order.
   */
  lemma ReplayAppendsDrafts(b: Browser, actions: seq<Action>)
    ensures |Replay(b, actions).chat.messages| == |b.chat.messages| + |Drafts(actions)|
    ensures Replay(b, actions).chat.messages[..|b.chat.messages|] == b.chat.messages
    ensures Transcript(Replay(b, actions).chat.messages) == Transcript(b.chat.messages) + Drafts(actions)
  {
    ReplayKeepsLogPrefix(b, actions);
    ReplayTranscript(b, actions);
  }

  /** After any history the typing flag is the one last set, and the folder the one last stored successfully. */
  lemma {:induction false} ReplayLastWrites(b: Browser, actions: seq<Action>)
    ensures Replay(b, actions).chat.isTyping == LastTyping(actions, b.chat.isTyping)
    ensures Replay(b, actions).chat.selectedFolder == LastStoredFolder(actions, b.chat.selectedFolder)
    decreases |actions|
  {
    if actions != [] {
      ReplayLastWrites(Dispatch(b, actions[0]), actions[1..]);
    }
  }

  /**
   Once the folder is persisted it stays persisted through any history, and
   any history with a successful folder change ends persisted.
   */
  lemma {:induction false} ReplayKeepsFolderPersisted(b: Browser, actions: seq<Action>)
    ensures FolderPersisted(b) ==> FolderPersisted(Replay(b, actions))
    ensures (exists i :: 0 <= i < |actions| && actions[i].SelectFolder? && actions[i].write.Written?)
            ==> FolderPersisted(Replay(b, actions))
    decreases |actions|
  {
    if actions != [] {
      var a := actions[0];
      var next := Dispatch(b, a);
      if a.SelectFolder? {
        SetSelectedFolderPersists(b, a.folder, a.write);
      }
      assert FolderPersisted(b) ==> FolderPersisted(next);
      assert a.SelectFolder? && a.write.Written? ==> FolderPersisted(next);
      ReplayKeepsFolderPersisted(next, actions[1..]);
      if exists i :: 0 <= i < |actions| && actions[i].SelectFolder? && actions[i].write.Written? {
        var i :| 0 <= i < |actions| && actions[i].SelectFolder? && actions[i].write.Written?;
        if i > 0 {
          assert actions[1..][i - 1] == actions[i];
        }
      }
    }
  }
}
