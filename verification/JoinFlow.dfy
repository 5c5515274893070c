/** The workspace component taking part in a session
(frontend/src/app/collaboration/collab-workspace.component.ts:214-411).

JavaScript runs one callback at a time, so the flow is a sequence of calls: a message arrives, an
awaited answer arrives. Any order of them that the awaits allow is a history. */
module JoinFlow {
  import opened Envelopes
  import opened WorkerRuntime

  /** What reaches the editor on `remoteUpdates$`. */
  datatype Feed = Snapshot(state: set<Update>) | One(u: Update)

  function Ones(us: seq<Update>): seq<Feed> {
    if us == [] then [] else Ones(us[..|us| - 1]) + [One(us[|us| - 1])]
  }

  /** The session's document after a feed: everything in it, merged. */
  function Merged(feed: seq<Feed>): set<Update> {
    if feed == [] then {}
    else Merged(feed[..|feed| - 1]) +
         (match feed[|feed| - 1] case Snapshot(state) => state case One(u) => {u})
  }

  lemma {:induction false} MergedSnapshotAndOnes(state: set<Update>, us: seq<Update>)
    ensures Merged([Snapshot(state)] + Ones(us)) == state + set u | u in us
  {
    var feed := [Snapshot(state)] + Ones(us);
    if us == [] {
      assert feed == [Snapshot(state)] && feed[..0] == [];
    } else {
      var init := us[..|us| - 1];
      MergedSnapshotAndOnes(state, init);
      assert feed[..|feed| - 1] == [Snapshot(state)] + Ones(init);
      assert us == init + [us[|us| - 1]];
    }
  }

  predicate ForChat(b: Body) {
    b.Chat? || b.Joined? || b.Left? || b.Error?
  }

  function ChatPart(bodies: seq<Body>): seq<Body> {
    if bodies == [] then []
    else
      var last := bodies[|bodies| - 1];
      ChatPart(bodies[..|bodies| - 1]) + (if ForChat(last) then [last] else [])
  }

  function ChatEntries(history: seq<string>): seq<Body> {
    seq(|history|, i requires 0 <= i < |history| => Chat(history[i]))
  }

  /** What one message adds to the feeds. */
  function EditPart(b: Body): seq<Feed> {
    if b.Edit? && b.update.Some? then [One(b.update.value)] else []
  }

  function TalkPart(b: Body): seq<Body> {
    if ForChat(b) then [b] else []
  }

  /** The editor's and the chat's feed in the join flow: the worker's state, then all that was received. */
  function JoinFeed(answer: Runtime, received: seq<Body>): seq<Feed> {
    [Snapshot(answer.updates)] + Ones(Updates(received))
  }

  function JoinChat(answer: Runtime, received: seq<Body>): seq<Body> {
    ChatEntries(answer.chat) + ChatPart(received)
  }

  /** The same in the initialising flow, where the feeds were already open when the state came. */
  function InitFeed(before: seq<Body>, answer: Runtime, since: seq<Body>): seq<Feed> {
    Ones(Updates(before)) + [Snapshot(answer.updates)] + Ones(Updates(since))
  }

  function InitChat(before: seq<Body>, answer: Runtime, since: seq<Body>): seq<Body> {
    ChatPart(before) + ChatEntries(answer.chat) + ChatPart(since)
  }

  datatype Phase = Idle | Connecting | Syncing | Active | Failed

  /** In the initialising flow nothing is missed from the opening of the feeds on, and the worker's state
  stands in the place where it came in. */
  ghost predicate InitDelivered(feed: seq<Feed>, chat: seq<Body>, phase: Phase,
                                received: seq<Body>, routedFrom: nat, answeredAt: nat, answer: Runtime)
    requires routedFrom <= answeredAt <= |received|
  {
    if phase == Active then
      && feed == InitFeed(received[routedFrom..answeredAt], answer, received[answeredAt..])
      && chat == InitChat(received[routedFrom..answeredAt], answer, received[answeredAt..])
    else
      feed == Ones(Updates(received[routedFrom..])) && chat == ChatPart(received[routedFrom..])
  }

  lemma InitDeliveredSnoc(feed: seq<Feed>, chat: seq<Body>, phase: Phase,
                          received: seq<Body>, routedFrom: nat, answeredAt: nat, answer: Runtime, b: Body)
    requires routedFrom <= answeredAt <= |received|
    requires InitDelivered(feed, chat, phase, received, routedFrom, answeredAt, answer)
    ensures InitDelivered(feed + EditPart(b), chat + TalkPart(b), phase, received + [b], routedFrom, answeredAt, answer)
  {
    var before, since := received[routedFrom..answeredAt], received[answeredAt..];
    var received' := received + [b];
    assert received'[routedFrom..answeredAt] == before && received'[answeredAt..] == since + [b];
    assert received'[routedFrom..] == received[routedFrom..] + [b];
    if phase == Active {
      InitFeedSnoc(before, answer, since, b);
    } else {
      RoutedSnoc(received[routedFrom..], b);
    }
  }

  class Workspace {
    const joining: bool                 // `mode` is 'join' rather than 'initialize'
    var phase: Phase
    var buffering: bool                 // the buffer's subscription is on
    var routing: bool                   // the live feeds are open
    var buffer: seq<Body>
    var remoteUpdates: seq<Feed>
    var chatMessages: seq<Body>
    ghost var received: seq<Body>       // everything since the socket opened
    ghost var routedFrom: nat           // how much of it had come when the feeds opened
    ghost var answeredAt: nat           // how much of it had come when the worker's state came
    ghost var answer: Runtime

    constructor (joining: bool)
      ensures Valid() && this.joining == joining && phase == Idle && received == []
    {
      this.joining := joining;
      phase, buffering, routing := Idle, false, false;
      buffer, remoteUpdates, chatMessages, received := [], [], [], [];
      routedFrom, answeredAt, answer := 0, 0, Runtime(0, {}, [], map[]);
    }

    /** In the join flow nothing is missed: what has reached the editor is the worker's state followed by
    every well-formed change received since the socket opened, in order, once. */
    ghost predicate JoinValid()
      reads this
    {
      && (phase == Connecting || phase == Syncing ==> buffering)
      && (buffering ==> !routing && phase != Active && buffer == received)
      && (phase == Active ==> routing && !buffering)
      && (routing ==>
            remoteUpdates == JoinFeed(answer, received) && chatMessages == JoinChat(answer, received))
    }

    ghost predicate InitValid()
      reads this
    {
      && !buffering
      && (phase == Active ==> routing)
      && routedFrom <= answeredAt <= |received|
      && (routing ==> phase == Syncing || phase == Active || phase == Failed)
      && (routing && phase != Failed ==>
            InitDelivered(remoteUpdates, chatMessages, phase, received, routedFrom, answeredAt, answer))
    }

    ghost predicate Valid()
      reads this
    {
      && (phase == Idle ==> received == [] && !buffering && !routing)
      && (phase == Connecting ==> !routing)
      && (!routing ==> remoteUpdates == [] && chatMessages == [])
      && (if joining then JoinValid() else InitValid())
    }

    /** `connect` has resolved: the socket exists, and the joiner starts to buffer. */
    method Connected()
      requires Valid() && phase == Idle
      modifies this
      ensures Valid() && phase == Connecting && received == []
    {
      phase := Connecting;
      if joining {
        buffering := true;
        buffer := [];
      }
      remoteUpdates, chatMessages := [], [];
    }

    /** `routeDocChanges` and `routeChatMessages`. */
    method Route(b: Body)
      modifies this`remoteUpdates, this`chatMessages
      ensures remoteUpdates == old(remoteUpdates) + EditPart(b)
      ensures chatMessages == old(chatMessages) + TalkPart(b)
      ensures remoteUpdates == old(remoteUpdates) + match b case Edit(Some(u)) => [One(u)] case _ => []
      ensures chatMessages == old(chatMessages) + match b
                              case Edit(_) => []
                              case Ack => []
                              case _ => [b]
    {
      if b.Edit? && b.update.Some? {
        remoteUpdates := remoteUpdates + [One(b.update.value)];
      }
      if ForChat(b) {
        chatMessages := chatMessages + [b];
      }
    }

    /** One round of the loop that drains the buffer. */
    method DrainOne(envelope: Body)
      modifies this`remoteUpdates, this`chatMessages
      ensures remoteUpdates == old(remoteUpdates) + EditPart(envelope)
      ensures chatMessages == old(chatMessages) + TalkPart(envelope)
      ensures remoteUpdates == old(remoteUpdates) + match envelope case Edit(Some(u)) => [One(u)] case _ => []
      ensures chatMessages == old(chatMessages) + match envelope
                              case Edit(_) => []
                              case Ack => []
                              case _ => [envelope]
    {
      match envelope {
        case Edit(update) =>
          if update.Some? {
            remoteUpdates := remoteUpdates + [One(update.value)];
          }
        case Joined(_, _) => chatMessages := chatMessages + [envelope];
        case Left(_, _) => chatMessages := chatMessages + [envelope];
        case Chat(_) => chatMessages := chatMessages + [envelope];
        case Error => chatMessages := chatMessages + [envelope];
        case Ack =>
      }
    }

    /** The persisted chat history goes to the chat first. */
    method ReplayChat(history: seq<string>)
      modifies this`chatMessages
      ensures chatMessages == old(chatMessages) + ChatEntries(history)
      ensures |chatMessages| == |old(chatMessages)| + |history| && old(chatMessages) <= chatMessages
      ensures forall i | 0 <= i < |history| :: chatMessages[|old(chatMessages)| + i] == Chat(history[i])
    {
      var all := ChatEntries(history);
      for i := 0 to |history|
        invariant chatMessages == old(chatMessages) + all[..i]
      {
        chatMessages := chatMessages + [Chat(history[i])];
      }
      assert all[..|history|] == all;
    }

    /** A message from the socket. */
    method Inbound(b: Body)
      requires Valid() && phase != Idle && phase != Failed
      modifies this
      ensures Valid() && phase == old(phase) && received == old(received) + [b]
      ensures remoteUpdates == old(remoteUpdates) + (if old(routing) then EditPart(b) else [])
      ensures chatMessages == old(chatMessages) + (if old(routing) then TalkPart(b) else [])
    {
      if buffering {
        buffer := buffer + [b];
      }
      if routing {
        Route(b);
      }
      ghost var before := received;
      received := received + [b];
      if joining {
        JoinFeedSnoc(answer, before, b);
      } else if routing {
        InitDeliveredSnoc(old(remoteUpdates), old(chatMessages), phase, before, routedFrom, answeredAt, answer, b);
      }
    }

    /** The acknowledgement has come and the first await resolves. */
    method Acknowledged()
      requires Valid() && phase == Connecting
      modifies this`phase
      ensures Valid() && phase == Syncing
    {
      phase := Syncing;
    }

    /** An awaited request fails. */
    method Fail()
      requires Valid() && phase != Idle && phase != Active
      modifies this`phase
      ensures Valid() && phase == Failed
    {
      phase := Failed;
    }

    /** The initialising flow: the backend has answered `init`, the live feeds open. */
    method Initialized()
      requires Valid() && !joining && phase == Syncing && !routing
      modifies this
      ensures Valid() && phase == Syncing && routing && received == old(received)
    {
      routing := true;
      remoteUpdates, chatMessages := [], [];
      routedFrom, answeredAt := |received|, |received|;
      assert received[routedFrom..] == [];
    }

    /** The initialising flow: the worker's state comes in behind what the feeds brought meanwhile. */
    method InitSynced(response: Runtime)
      requires Valid() && !joining && phase == Syncing && routing
      modifies this
      ensures Valid() && phase == Active && received == old(received) && answer == response
      ensures routedFrom == old(routedFrom) && answeredAt == |received|
      ensures remoteUpdates == old(remoteUpdates) + [Snapshot(response.updates)]
      ensures |chatMessages| == |old(chatMessages)| + |response.chat| && old(chatMessages) <= chatMessages
      ensures forall i | 0 <= i < |response.chat| ::
                chatMessages[|old(chatMessages)| + i] == Chat(response.chat[i])
    {
      answer := response;
      answeredAt := |received|;
      remoteUpdates := remoteUpdates + [Snapshot(response.updates)];
      ReplayChat(response.chat);
      phase := Active;
      assert received[answeredAt..] == [];
      assert received[routedFrom..answeredAt] == received[routedFrom..];
    }

    /** The join flow: the worker's state comes, the buffer is drained behind it, the feeds open. */
    method JoinSynced(response: Runtime)
      requires Valid() && joining && phase == Syncing
      modifies this
      ensures Valid() && phase == Active && received == old(received) && answer == response
      ensures remoteUpdates == JoinFeed(response, received) && chatMessages == JoinChat(response, received)
      ensures remoteUpdates != [] && remoteUpdates[0] == Snapshot(response.updates)
    {
      buffering := false;
      answer := response;
      answeredAt := |received|;
      remoteUpdates := remoteUpdates + [Snapshot(response.updates)];
      ReplayChat(response.chat);
      for i := 0 to |buffer|
        invariant remoteUpdates == JoinFeed(response, buffer[..i]) && chatMessages == JoinChat(response, buffer[..i])
        modifies this`remoteUpdates, this`chatMessages
      {
        JoinFeedSnoc(response, buffer[..i], buffer[i]);
        assert buffer[..i + 1] == buffer[..i] + [buffer[i]];
        DrainOne(buffer[i]);
      }
      assert buffer[..|buffer|] == received;
      routing := true;
      phase := Active;
    }
  }

  /** What a feed is, place by place: the state first, then the changes received, one by one and in order. */
  lemma JoinFeedExactly(answer: Runtime, received: seq<Body>)
    ensures |JoinFeed(answer, received)| == 1 + |Updates(received)|
    ensures JoinFeed(answer, received)[0] == Snapshot(answer.updates)
    ensures forall i | 0 <= i < |Updates(received)| :: JoinFeed(answer, received)[1 + i] == One(Updates(received)[i])
  {
    OnesExactly(Updates(received));
  }

  lemma {:induction false} OnesExactly(us: seq<Update>)
    ensures |Ones(us)| == |us| && forall i | 0 <= i < |us| :: Ones(us)[i] == One(us[i])
  {
    if us != [] {
      OnesExactly(us[..|us| - 1]);
    }
  }

  /** What the chat is given: the history first, then of the messages received all but edits and
  acknowledgements, in order. */
  lemma JoinChatExactly(answer: Runtime, xs: seq<Body>, ys: seq<Body>)
    ensures JoinChat(answer, []) == seq(|answer.chat|, i requires 0 <= i < |answer.chat| => Chat(answer.chat[i]))
    ensures JoinChat(answer, xs + ys) == JoinChat(answer, xs) + ChatPart(ys)
    ensures |ys| == 1 ==> ChatPart(ys) == if ys[0].Edit? || ys[0].Ack? then [] else ys
  {
    ChatPartInOrder(xs, ys);
    Regroup(ChatEntries(answer.chat), ChatPart(xs), ChatPart(ys));
    if |ys| == 1 {
      assert ys[..0] == [] && ys == [ys[0]];
    }
  }

  lemma {:induction false} ChatPartInOrder(xs: seq<Body>, ys: seq<Body>)
    ensures ChatPart(xs + ys) == ChatPart(xs) + ChatPart(ys)
  {
    if ys == [] {
      assert xs + ys == xs;
    } else {
      var last := |ys| - 1;
      ChatPartInOrder(xs, ys[..last]);
      assert (xs + ys)[..|xs| + last] == xs + ys[..last];
    }
  }

  lemma OnesSnoc(us: seq<Update>, u: Update)
    ensures Ones(us + [u]) == Ones(us) + [One(u)]
  {
    assert (us + [u])[..|us|] == us;
  }

  lemma RoutedSnoc(bodies: seq<Body>, b: Body)
    ensures Ones(Updates(bodies + [b])) == Ones(Updates(bodies)) + EditPart(b)
    ensures ChatPart(bodies + [b]) == ChatPart(bodies) + TalkPart(b)
  {
    UpdatesSnoc(bodies, b);
    assert (bodies + [b])[..|bodies|] == bodies;
    if b.Edit? && b.update.Some? {
      OnesSnoc(Updates(bodies), b.update.value);
    } else {
      assert Updates(bodies) + [] == Updates(bodies);
      assert Ones(Updates(bodies)) + [] == Ones(Updates(bodies));
    }
  }

  lemma JoinFeedSnoc(answer: Runtime, received: seq<Body>, b: Body)
    ensures JoinFeed(answer, received + [b]) == JoinFeed(answer, received) + EditPart(b)
    ensures JoinChat(answer, received + [b]) == JoinChat(answer, received) + TalkPart(b)
  {
    RoutedSnoc(received, b);
    Regroup([Snapshot(answer.updates)], Ones(Updates(received)), EditPart(b));
    Regroup(ChatEntries(answer.chat), ChatPart(received), TalkPart(b));
  }

  lemma InitFeedSnoc(before: seq<Body>, answer: Runtime, since: seq<Body>, b: Body)
    ensures InitFeed(before, answer, since + [b]) == InitFeed(before, answer, since) + EditPart(b)
    ensures InitChat(before, answer, since + [b]) == InitChat(before, answer, since) + TalkPart(b)
  {
    RoutedSnoc(since, b);
    Regroup(Ones(Updates(before)) + [Snapshot(answer.updates)], Ones(Updates(since)), EditPart(b));
    Regroup(ChatPart(before) + ChatEntries(answer.chat), ChatPart(since), TalkPart(b));
  }

  lemma Regroup<T>(a: seq<T>, b: seq<T>, c: seq<T>)
    ensures a + (b + c) == (a + b) + c
  {}
}
