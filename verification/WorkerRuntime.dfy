/** The collaboration state worker: one runtime per document, a silent reader of its channel
(collaboration-state-worker/src/documentRuntime.ts, documentManager.ts). */
module WorkerRuntime {
  import opened Wrappers
  import opened Envelopes

  type DocId = int

  /** What a runtime knows. Its Yjs document is the set of updates merged into it. */
  datatype Runtime = Runtime(userCount: nat, updates: set<Update>, chat: seq<string>, participants: map<int, string>)

  /** A runtime as `initializeDocument` leaves it: the initial content is itself a set of updates. */
  function Initialized(content: set<Update>, user: int, name: string): Runtime {
    Runtime(1, content, [], map[user := name])
  }

  function Apply(rt: Runtime, body: Body): Runtime {
    match body
    case Joined(user, name) => rt.(userCount := rt.userCount + 1, participants := rt.participants[user := name])
    case Left(user, _) =>
      rt.(userCount := if rt.userCount == 0 then 0 else rt.userCount - 1, participants := rt.participants - {user})
    case Edit(Some(u)) => rt.(updates := rt.updates + {u})
    case Chat(text) => rt.(chat := rt.chat + [text])
    case _ => rt
  }

  /** A message is applied to the runtime, and dropped without one. */
  function Taken(rt: Option<Runtime>, body: Body): Option<Runtime> {
    if rt.None? then None else Some(Apply(rt.value, body))
  }

  /** A runtime whose count has come to zero is closed. */
  function Tested(rt: Option<Runtime>): Option<Runtime> {
    if rt.Some? && rt.value.userCount == 0 then None else rt
  }

  /** What the worker holds for a document after a message that it handles alone. */
  function Handled(rt: Option<Runtime>, body: Body): Option<Runtime> {
    Tested(Taken(rt, body))
  }

  class DocumentRuntime {
    const documentId: DocId
    var userCount: nat
    var updates: set<Update>
    var chatHistory: seq<string>
    var participantMap: map<int, string>
    var persisting: bool
    var shutdownCompleted: bool
    var finalSyncs: seq<set<Update>>   // what was persisted with the final flag

    ghost function View(): Runtime
      reads this
    {
      Runtime(userCount, updates, chatHistory, participantMap)
    }

    constructor (documentId: DocId, content: set<Update>)
      ensures this.documentId == documentId && View() == Runtime(1, content, [], map[])
      ensures !persisting && !shutdownCompleted && finalSyncs == []
    {
      this.documentId := documentId;
      userCount, updates, chatHistory, participantMap := 1, content, [], map[];
      persisting, shutdownCompleted, finalSyncs := false, false, [];
    }

    method IncrementUserCount()
      modifies this`userCount
      ensures userCount == old(userCount) + 1
    {
      userCount := userCount + 1;
    }

    method DecrementUserCount()
      modifies this`userCount
      ensures userCount == if old(userCount) == 0 then 0 else old(userCount) - 1
    {
      var lowered: int := userCount - 1;
      userCount := if lowered < 0 then 0 else lowered;
    }

    /** `applyEnvelope`. */
    method ApplyEnvelope(body: Body)
      modifies this`userCount, this`updates, this`chatHistory, this`participantMap
      ensures View() == Apply(old(View()), body)
      ensures userCount == match body
                           case Joined(_, _) => old(userCount) + 1
                           case Left(_, _) => if old(userCount) > 0 then old(userCount) - 1 else 0
                           case _ => old(userCount)
      ensures participantMap == match body
                                case Joined(user, name) => old(participantMap)[user := name]
                                case Left(user, _) => old(participantMap) - {user}
                                case _ => old(participantMap)
      ensures updates == old(updates) + if body.Edit? && body.update.Some? then {body.update.value} else {}
      ensures chatHistory == old(chatHistory) + if body.Chat? then [body.text] else []
    {
      match body {
        case Joined(user, name) =>
          IncrementUserCount();
          participantMap := participantMap[user := name];
        case Left(user, _) =>
          DecrementUserCount();
          participantMap := participantMap - {user};
        case Edit(update) =>
          if update.Some? {
            updates := updates + {update.value};
          }
        case Chat(text) =>
          chatHistory := chatHistory + [text];
        case _ =>
      }
    }

    /** `shutdown`: the final state is persisted once. */
    method Shutdown()
      modifies this`shutdownCompleted, this`persisting, this`finalSyncs
      ensures shutdownCompleted
      ensures old(shutdownCompleted) ==> finalSyncs == old(finalSyncs) && persisting == old(persisting)
      ensures !old(shutdownCompleted) ==> finalSyncs == old(finalSyncs) + [updates] && !persisting
    {
      if shutdownCompleted {
        return;
      }
      shutdownCompleted := true;
      persisting := false;
      finalSyncs := finalSyncs + [updates];
    }
  }

  class DocumentManager {
    var documents: map<DocId, DocumentRuntime>
    var subscribedChannels: set<DocId>

    /** Every runtime sits under its own document's id and is subscribed to its channel. */
    ghost predicate Valid()
      reads this, documents.Values
    {
      && subscribedChannels == documents.Keys
      && forall d | d in documents :: documents[d].documentId == d && !documents[d].shutdownCompleted
    }

    ghost function RuntimeOf(doc: DocId): Option<Runtime>
      reads this, documents.Values
    {
      if doc in documents then Some(documents[doc].View()) else None
    }

    constructor ()
      ensures Valid() && documents == map[]
    {
      documents, subscribedChannels := map[], {};
    }

    method InitializeDocument(doc: DocId, content: set<Update>, user: int, name: string)
      requires Valid()
      modifies this, if doc in documents then {documents[doc]} else {}
      ensures Valid() && documents.Keys == old(documents).Keys + {doc}
      ensures RuntimeOf(doc) == Some(Initialized(content, user, name))
      ensures var rt := documents[doc];
              && rt.updates == content && rt.userCount == 1 && rt.chatHistory == []
              && rt.participantMap == map[user := name]
      ensures fresh(documents[doc]) && documents[doc].persisting && documents[doc].finalSyncs == []
      ensures forall d | d in old(documents) && d != doc :: documents[d] == old(documents)[d]
      ensures doc in old(documents) ==> old(documents)[doc].shutdownCompleted
    {
      if doc in documents {
        documents[doc].Shutdown();
        documents := documents - {doc};
      }
      var runtime := new DocumentRuntime(doc, content);
      documents := documents[doc := runtime];
      if doc !in subscribedChannels {
        subscribedChannels := subscribedChannels + {doc};
      }
      runtime.persisting := true;
      runtime.participantMap := runtime.participantMap[user := name];
    }

    method SyncDocument(doc: DocId) returns (snapshot: Option<Runtime>)
      ensures snapshot == RuntimeOf(doc)
    {
      if doc !in documents {
        return None;
      }
      var rt := documents[doc];
      snapshot := Some(Runtime(rt.userCount, rt.updates, rt.chatHistory, rt.participantMap));
    }

    /** `handleRedisMessage` up to its await: the runtime that is there takes the message. */
    method BeginMessage(doc: DocId, body: Body) returns (rt: DocumentRuntime?)
      requires Valid()
      modifies if doc in documents then {documents[doc]} else {}
      ensures Valid() && RuntimeOf(doc) == Taken(old(RuntimeOf(doc)), body)
      ensures rt == if doc in documents then documents[doc] else null
      ensures rt != null ==> rt.finalSyncs == old(documents[doc].finalSyncs)
    {
      if doc !in documents {
        return null;
      }
      rt := documents[doc];
      rt.ApplyEnvelope(body);
    }

    /** The rest of it, after whatever other messages of the same turn have been applied: if nobody is left
    in the runtime that took the message, the document is closed, whichever runtime it has by then. */
    method EndMessage(doc: DocId, rt: DocumentRuntime)
      requires Valid()
      modifies this, if doc in documents then {documents[doc]} else {}
      ensures Valid() && documents == if old(rt.userCount) == 0 then old(documents) - {doc} else old(documents)
      ensures old(doc in documents && documents[doc] == rt) ==> RuntimeOf(doc) == Tested(old(RuntimeOf(doc)))
      ensures doc in old(documents) ==>
                var held := old(documents)[doc];
                && held.View() == old(held.View())
                && held.finalSyncs
                     == old(held.finalSyncs) + (if old(rt.userCount) == 0 then [held.updates] else [])
    {
      if rt.userCount <= 0 {
        CloseDocument(doc);
      }
    }

    /** `handleRedisMessage` with nothing in between. */
    method HandleRedisMessage(doc: DocId, body: Body)
      requires Valid()
      modifies this, if doc in documents then {documents[doc]} else {}
      ensures Valid()
      ensures RuntimeOf(doc) == Handled(old(RuntimeOf(doc)), body)
      ensures documents == if RuntimeOf(doc).None? then old(documents) - {doc} else old(documents)
      ensures doc in old(documents) ==>
                var rt := old(documents)[doc];
                && rt.View() == Apply(old(rt.View()), body)
                && rt.finalSyncs == old(rt.finalSyncs) + (if doc in documents then [] else [rt.updates])
    {
      var rt := BeginMessage(doc, body);
      if rt != null {
        EndMessage(doc, rt);
      } else {
        assert documents == documents - {doc};
      }
    }

    method CloseDocument(doc: DocId)
      requires Valid()
      modifies this, if doc in documents then {documents[doc]} else {}
      ensures Valid() && documents == old(documents) - {doc}
      ensures doc in old(documents) ==>
                var rt := old(documents)[doc];
                && rt.View() == old(rt.View()) && rt.shutdownCompleted
                && rt.finalSyncs == old(rt.finalSyncs) + [rt.updates]
    {
      if doc !in documents {
        assert documents == documents - {doc};
        return;
      }
      var rt := documents[doc];
      forall d | d in documents && d != doc ensures documents[d] != rt {
        assert documents[d].documentId == d;
      }
      subscribedChannels := subscribedChannels - {doc};
      rt.Shutdown();
      documents := documents - {doc};
    }
  }
}
