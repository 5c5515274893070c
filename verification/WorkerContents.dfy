/** What an open document holds: the content it was opened with, every edit read, and every chat message
read, in the order of the log (collaboration-state-worker/src/documentRuntime.ts:33-80). */
module WorkerContents {
  import opened Wrappers
  import opened Envelopes
  import opened RoomProtocol
  import opened RoomTheorems
  import opened WorkerRuntime
  import opened WorkerSession
  import opened JoinFlow
  import opened LateJoiner

  /** The texts of the chat messages of a document between two places of the log. */
  function Said(s: State, doc: Doc, start: nat, k: nat): seq<string>
    requires start <= k <= |s.log|
  {
    if k == start then []
    else
      var before := Said(s, doc, start, k - 1);
      if OfDoc(s, k - 1, doc) && s.handed[s.log[k - 1]].body.Chat? then before + [s.handed[s.log[k - 1]].body.text]
      else before
  }

  /** A runtime just installed on `content` for the first user. */
  predicate Opened(init: Runtime, content: set<Update>, user: int, name: string) {
    && init.updates == content && init.userCount == 1 && init.chat == [] && init.participants == map[user := name]
  }

  /** What is installed when a document is initialised is such a runtime. */
  lemma InitializedIsOpened(content: set<Update>, user: int, name: string)
    ensures Opened(Initialized(content, user, name), content, user, name)
  {}

  /** An open document never loses the content it was opened with; its updates are that content and the
  edits read, and its history is what has been said, all of it, in order. */
  lemma {:induction false} OpenDocumentHolds(s: State, doc: Doc, content: set<Update>, user: int, name: string,
                                             start: nat, k: nat)
    requires start <= k <= |s.log| && Worked(s, doc, Initialized(content, user, name), start, k).Some?
    ensures var rt := Worked(s, doc, Initialized(content, user, name), start, k).value;
            && content <= rt.updates
            && (forall u :: u in rt.updates - content ==>
                  exists p :: start <= p < k && p < |s.log| && Hands(s, s.log[p], doc, u))
            && (forall p, u | start <= p < k && p < |s.log| && Hands(s, s.log[p], doc, u) :: u in rt.updates)
            && rt.chat == Said(s, doc, start, k)
  {
    var init := Initialized(content, user, name);
    InitializedIsOpened(content, user, name);
    var rt := Worked(s, doc, init, start, k).value;
    forall u: Update
      ensures u in rt.updates
         <==> u in content || exists p :: start <= p < k && p < |s.log| && Hands(s, s.log[p], doc, u)
    {
      WorkedUpdates(s, doc, init, start, k, u);
    }
    ChatIsSaid(s, doc, init, start, k);
  }

  lemma {:induction false} ChatIsSaid(s: State, doc: Doc, init: Runtime, start: nat, k: nat)
    requires start <= k <= |s.log| && Worked(s, doc, init, start, k).Some? && init.chat == []
    ensures Worked(s, doc, init, start, k).value.chat == Said(s, doc, start, k)
  {
    if start < k {
      assert Worked(s, doc, init, start, k - 1).Some?;
      ChatIsSaid(s, doc, init, start, k - 1);
    }
  }

  /** Whoever joins is given that content, whatever else was said and done since. */
  lemma JoinerHasContent(s: State, r: ClientId, content: set<Update>, user: int, name: string, start: nat, k: nat)
    requires r < |s.clients| && start <= k <= |s.log|
    requires Worked(s, s.clients[r].doc, Initialized(content, user, name), start, k).Some?
    ensures var answer := Worked(s, s.clients[r].doc, Initialized(content, user, name), start, k).value;
            content <= JoinersDocument(s, r, answer)
  {
    var doc := s.clients[r].doc;
    var answer := Worked(s, doc, Initialized(content, user, name), start, k).value;
    OpenDocumentHolds(s, doc, content, user, name, start, k);
    MergedSnapshotAndOnes(answer.updates, Updates(LateJoiner.Received(s, s.clients[r].pushed)));
  }
}
