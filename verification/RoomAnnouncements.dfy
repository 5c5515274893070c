/** Arrivals and departures in the room protocol: each client announces each of them once, in that
order, and nothing outside them. */
module RoomAnnouncements {
  import opened Wrappers
  import opened RoomProtocol
  import opened RoomInvariants

  predicate Says(s: State, m: MsgId, c: ClientId) {
    m < |s.handed| && s.handed[m].sender == c
  }

  predicate SaysJoined(s: State, m: MsgId, c: ClientId) {
    Says(s, m, c) && s.handed[m].body.Joined?
  }

  predicate SaysLeft(s: State, m: MsgId, c: ClientId) {
    Says(s, m, c) && s.handed[m].body.Left?
  }

  ghost predicate HasSpoken(s: State, c: ClientId) { exists m :: Says(s, m, c) }
  ghost predicate HasJoined(s: State, c: ClientId) { exists m :: SaysJoined(s, m, c) }
  ghost predicate HasLeft(s: State, c: ClientId) { exists m :: SaysLeft(s, m, c) }

  datatype Stage = Unannounced | Arrived | Departed

  /** How far a client's goroutine has come with its announcements. */
  function StageOf(s: State, c: ClientId): Stage
    requires c < |s.clients|
  {
    var task := TaskOf(s, OfClient(c));
    match s.clients[c].phase
    case Joining => if task.MustAnnounce? then Unannounced else Arrived
    case Live => Arrived
    case Leaving(_) => if task.MustAnnounce? then Arrived else Departed
    case _ => Departed
  }

  ghost predicate StageOk(s: State, c: ClientId)
    requires c < |s.clients|
  {
    match StageOf(s, c)
    case Unannounced => !HasSpoken(s, c)
    case Arrived => HasJoined(s, c) && !HasLeft(s, c)
    case Departed => HasJoined(s, c) && HasLeft(s, c)
  }

  ghost predicate OnceOk(s: State, m: MsgId, n: MsgId, c: ClientId) {
    m < n && Says(s, m, c) && Says(s, n, c) ==> !SaysLeft(s, m, c) && !SaysJoined(s, n, c)
  }

  ghost predicate AnnounceOk(s: State) {
    && (forall c | 0 <= c < |s.clients| :: StageOk(s, c))
    && (forall m: MsgId, n: MsgId, c: ClientId :: OnceOk(s, m, n, c))
    && (forall c: ClientId :: HasSpoken(s, c) ==> c < |s.clients|)
  }

  lemma SilentSaysSame(s: State, a: Step, c: ClientId)
    requires Enabled(s, a) && !(a.Begin? && a.c == c)
    ensures HasSpoken(Next(s, a), c) == HasSpoken(s, c)
    ensures HasJoined(Next(s, a), c) == HasJoined(s, c)
    ensures HasLeft(Next(s, a), c) == HasLeft(s, c)
  {
    var s' := Next(s, a);
    assert forall m :: Says(s', m, c) <==> Says(s, m, c);
    assert forall m :: SaysJoined(s', m, c) <==> SaysJoined(s, m, c);
    assert forall m :: SaysLeft(s', m, c) <==> SaysLeft(s, m, c);
  }

  lemma QuietStageSame(s: State, a: Step, c: ClientId)
    requires Enabled(s, a) && Quiet(a) && c < |s.clients| && ClientTaskOk(s, c) && !(a.Begin? && a.c == c)
    ensures StageOf(Next(s, a), c) == StageOf(s, c)
  {
    QuietKeepsStructure(s, a);
    if Actor(a) != Some(OfClient(c)) {
      OthersTasks(s, a, OfClient(c));
    }
  }

  lemma SilentStageSame(s: State, a: Step, c: ClientId)
    requires RoomsOk(s) && Enabled(s, a) && c < |s.clients| && ClientTaskOk(s, c) && !(a.Begin? && a.c == c)
    ensures StageOf(Next(s, a), c) == StageOf(s, c)
  {
    if Quiet(a) {
      QuietStageSame(s, a, c);
    } else if !a.Register? && a.c == c {
      OwnStageSame(s, a);
    } else {
      OthersTasks(s, a, OfClient(c));
      OthersPhase(s, a, c);
    }
  }

  lemma OthersPhase(s: State, a: Step, c: ClientId)
    requires Enabled(s, a) && c < |s.clients| && !Quiet(a) && (a.Register? || a.c != c)
    ensures Next(s, a).clients[c].phase == s.clients[c].phase
  {}

  lemma OwnStageSame(s: State, a: Step)
    requires RoomsOk(s) && Enabled(s, a) && (a.Publish? || a.Unregister? || a.CloseSelf? || a.CloseSub?)
    requires ClientTaskOk(s, a.c)
    ensures StageOf(Next(s, a), a.c) == StageOf(s, a.c)
  {
    if a.Unregister? {
      assert InRoom(s, a.c);
    }
  }

  lemma BeginKeepsStage(s: State, a: Step)
    requires AnnounceOk(s) && Enabled(s, a) && a.Begin?
    ensures StageOk(Next(s, a), a.c)
  {
    var s', c, m0 := Next(s, a), a.c, |s.handed|;
    assert StageOk(s, c) && Says(s', m0, c);
    if HasJoined(s, c) {
      var m :| SaysJoined(s, m, c);
      assert SaysJoined(s', m, c);
    }
    if a.body.Joined? {
      assert SaysJoined(s', m0, c);
    }
    if a.body.Left? {
      assert SaysLeft(s', m0, c);
    } else if HasLeft(s', c) {
      var m :| SaysLeft(s', m, c);
      assert SaysLeft(s, m, c);
    }
  }

  lemma OnceKept(s: State, a: Step, m: MsgId, n: MsgId, c: ClientId)
    requires AnnounceOk(s) && Enabled(s, a)
    ensures OnceOk(Next(s, a), m, n, c)
  {
    assert OnceOk(s, m, n, c);
    if n == |s.handed| && a.Begin? && a.c == c {
      assert StageOk(s, c);
      assert SaysLeft(s, m, c) ==> HasLeft(s, c);
      assert Says(s, m, c) ==> HasSpoken(s, c);
    }
  }

  lemma KeepsAnnounce(s: State, a: Step)
    requires TasksOk(s) && RoomsOk(s) && AnnounceOk(s) && Enabled(s, a)
    ensures AnnounceOk(Next(s, a))
  {
    var s' := Next(s, a);
    forall c | 0 <= c < |s'.clients| ensures StageOk(s', c) {
      if a.Begin? && a.c == c {
        BeginKeepsStage(s, a);
      } else {
        SilentSaysSame(s, a, c);
        if c < |s.clients| {
          assert ClientTaskOk(s, c) && StageOk(s, c);
          SilentStageSame(s, a, c);
        }
      }
    }
    forall m: MsgId, n: MsgId, c: ClientId ensures OnceOk(s', m, n, c) {
      OnceKept(s, a, m, n, c);
    }
    forall c: ClientId | HasSpoken(s', c) ensures c < |s'.clients| {
      if !(a.Begin? && a.c == c) {
        SilentSaysSame(s, a, c);
      }
    }
  }
}
