/** The silent-refresh interceptor (frontend/src/app/core/jwt.interceptor.ts): requests answered 401
wait for one refresh and are then sent once more. */
module SilentRefresh {
  import opened Wrappers

  type RequestId = nat
  type Token = nat

  /** `lead` marks the request whose 401 started a refresh: its retry runs inside that refresh's own
  error handler. */
  datatype Status =
    | Sent
    | Leading
    | Parked
    | Retried(token: Token, lead: bool)
    | Ended(ok: bool)

  /** `loads` is the leader of the refresh whose profile this request loads, if it is such a request. It goes
  through the interceptor like any other. */
  datatype Request = Request(status: Status, retries: nat, loads: Option<RequestId>)

  /** A refresh in progress, under the id of its leader. */
  datatype Flight = AwaitToken | AwaitProfile(token: Token, profile: RequestId)

  datatype State = State(requests: map<RequestId, Request>, flights: map<RequestId, Flight>,
                         refreshing: bool, subject: Option<Token>, access: Option<Token>)

  const INITIAL := State(map[], map[], false, None, None)

  datatype Event =
    | Send(id: RequestId)
    | Answered(id: RequestId, ok: bool)          // to a first attempt, anything but 401
    | Unauthorized(id: RequestId)                // 401 to a first attempt
    | TokenCame(lead: RequestId, token: Token, profile: RequestId)
    | TokenRefused(lead: RequestId)              // the refresh request failed
    | RetryAnswered(id: RequestId, ok: bool)
    | Cancel(id: RequestId)                      // its subscriber unsubscribes

  predicate HasStatus(s: State, id: RequestId, st: Status) {
    id in s.requests && s.requests[id].status == st
  }

  predicate Awaits(s: State, lead: RequestId, id: RequestId) {
    lead in s.flights && s.flights[lead].AwaitProfile? && s.flights[lead].profile == id
  }

  predicate Enabled(s: State, e: Event) {
    match e
    case Send(id) => id !in s.requests
    case Answered(id, _) => HasStatus(s, id, Sent)
    case Unauthorized(id) => HasStatus(s, id, Sent)
    case TokenCame(lead, _, profile) =>
      lead in s.flights && lead in s.requests && s.flights[lead].AwaitToken? && profile !in s.requests
    case TokenRefused(lead) => lead in s.flights && lead in s.requests && s.flights[lead].AwaitToken?
    case RetryAnswered(id, _) => id in s.requests && s.requests[id].status.Retried?
    case Cancel(id) => id in s.requests && !s.requests[id].status.Ended? && s.requests[id].loads.None?
  }

  function SetStatus(s: State, id: RequestId, st: Status): State
    requires id in s.requests
  {
    s.(requests := s.requests[id := s.requests[id].(status := st)])
  }

  /** A request sent again with the new token. */
  function Again(r: Request, token: Token, lead: bool): Request {
    Request(Retried(token, lead), r.retries + 1, r.loads)
  }

  /** `refreshSubject.next(token)`: everything parked goes out again. */
  function Released(requests: map<RequestId, Request>, token: Token): map<RequestId, Request> {
    map id | id in requests ::
      if requests[id].status == Parked then Again(requests[id], token, false) else requests[id]
  }

  /** What the error handler around a refresh does. */
  function GiveUp(s: State): State {
    s.(refreshing := false, subject := None, access := None)
  }

  /** The leader of the refresh that waits for this request, if one does. */
  function AwaitedBy(s: State, id: RequestId): Option<RequestId>
    requires id in s.requests
  {
    match s.requests[id].loads
    case Some(lead) => if lead in s.requests && Awaits(s, lead, id) then Some(lead) else None
    case None => None
  }

  /** A request comes to its end. If it was loading the profile for a refresh, that goes on or fails. */
  function Settle(s: State, id: RequestId, ok: bool): State
    requires id in s.requests
    decreases |s.flights|, 1
  {
    var s1 := SetStatus(s, id, Ended(ok));
    match AwaitedBy(s, id)
    case None => s1
    case Some(lead) => if ok then Complete(s1, lead) else Fail(s1, lead)
  }

  /** The profile has come: the flag goes down, the parked requests and then the leader go out again. */
  function Complete(s: State, lead: RequestId): State
    requires lead in s.flights && lead in s.requests && s.flights[lead].AwaitProfile?
  {
    var token := s.flights[lead].token;
    var requests := Released(s.requests, token);
    State(requests[lead := Again(requests[lead], token, true)], s.flights - {lead}, false, Some(token), s.access)
  }

  /** The refresh has failed, and its leader with it. */
  function Fail(s: State, lead: RequestId): State
    requires lead in s.flights && lead in s.requests
    decreases |s.flights|, 0
  {
    Settle(GiveUp(s.(flights := s.flights - {lead})), lead, false)
  }

  /** A request is given up by whoever waits for it: neither branch of a refresh that it leads will run,
  and the profile request of that refresh is given up in turn. The flag stays as it is. */
  function Unsubscribe(s: State, id: RequestId): State
    requires id in s.requests
    decreases |s.flights|
  {
    var s1 := SetStatus(s, id, Ended(false)).(flights := s.flights - {id});
    if id in s.flights && s.flights[id].AwaitProfile? && s.flights[id].profile in s.requests then
      Unsubscribe(s1, s.flights[id].profile)
    else s1
  }

  function Next(s: State, e: Event): State
    requires Enabled(s, e)
  {
    match e
    case Send(id) => s.(requests := s.requests[id := Request(Sent, 0, None)])
    case Answered(id, ok) => Settle(s, id, ok)
    case Unauthorized(id) =>
      if !s.refreshing then
        SetStatus(s, id, Leading).(refreshing := true, subject := None, flights := s.flights[id := AwaitToken])
      else if s.subject.None? then SetStatus(s, id, Parked)
      else s.(requests := s.requests[id := Again(s.requests[id], s.subject.value, false)])
    case TokenCame(lead, token, profile) =>
      s.(access := Some(token), flights := s.flights[lead := AwaitProfile(token, profile)],
         requests := s.requests[profile := Request(Sent, 0, Some(lead))])
    case TokenRefused(lead) => Fail(s, lead)
    case RetryAnswered(id, ok) => Settle(if s.requests[id].status.lead && !ok then GiveUp(s) else s, id, ok)
    case Cancel(id) => Unsubscribe(s, id)
  }

  ghost predicate Run(ss: seq<State>, es: seq<Event>) {
    && |ss| == |es| + 1 && ss[0] == INITIAL
    && forall i | 0 <= i < |es| :: Enabled(ss[i], es[i]) && ss[i + 1] == Next(ss[i], es[i])
  }

  // ---- What holds on every run ----

  predicate RequestOk(r: Request) {
    match r.status
    case Retried(_, _) => r.retries == 1
    case Ended(_) => r.retries <= 1
    case _ => r.retries == 0
  }

  /** A refresh and the request that loads its profile point to each other until that has ended. */
  ghost predicate FlightOk(s: State, lead: RequestId)
    requires lead in s.flights
  {
    && HasStatus(s, lead, Leading)
    && (s.flights[lead].AwaitProfile? ==>
          var profile := s.flights[lead].profile;
          && profile in s.requests && s.requests[profile].loads == Some(lead) && !s.requests[profile].status.Ended?)
  }

  ghost predicate LoadOk(s: State, id: RequestId)
    requires id in s.requests
  {
    s.requests[id].loads.Some? && !s.requests[id].status.Ended? ==> Awaits(s, s.requests[id].loads.value, id)
  }

  /** No request is sent a third time, a token stands in the subject only when no refresh is on, and every
  leader but `x` has its refresh. */
  ghost predicate SoundBut(s: State, x: Option<RequestId>) {
    && (forall id | id in s.requests :: RequestOk(s.requests[id]) && LoadOk(s, id))
    && (s.refreshing ==> s.subject.None?)
    && (forall lead | lead in s.flights :: Some(lead) != x && FlightOk(s, lead))
    && (forall id | id in s.requests && s.requests[id].status.Leading? && Some(id) != x :: id in s.flights)
  }

  ghost predicate Sound(s: State) {
    SoundBut(s, None)
  }

  lemma CompleteSound(s: State, id: RequestId)
    requires id in s.requests && SoundBut(s, Some(id)) && AwaitedBy(s, id).Some? && !s.requests[id].status.Ended?
    ensures Sound(Complete(SetStatus(s, id, Ended(true)), AwaitedBy(s, id).value))
  {
    var lead := AwaitedBy(s, id).value;
    var s' := Complete(SetStatus(s, id, Ended(true)), lead);
    forall l | l in s'.flights ensures FlightOk(s', l) {
      CompletedFlight(s, id, l);
    }
    forall r | r in s'.requests
      ensures RequestOk(s'.requests[r]) && LoadOk(s', r) && (s'.requests[r].status.Leading? ==> r in s'.flights)
    {
      CompletedRequest(s, id, r);
    }
  }

  lemma CompletedFlight(s: State, id: RequestId, l: RequestId)
    requires id in s.requests && SoundBut(s, Some(id)) && AwaitedBy(s, id).Some?
    requires l in s.flights && l != AwaitedBy(s, id).value
    ensures FlightOk(Complete(SetStatus(s, id, Ended(true)), AwaitedBy(s, id).value), l)
  {
    assert FlightOk(s, l);
  }

  lemma CompletedRequest(s: State, id: RequestId, r: RequestId)
    requires id in s.requests && SoundBut(s, Some(id)) && AwaitedBy(s, id).Some? && !s.requests[id].status.Ended?
    requires r in s.requests
    ensures var s' := Complete(SetStatus(s, id, Ended(true)), AwaitedBy(s, id).value);
            && RequestOk(s'.requests[r]) && LoadOk(s', r)
            && (s'.requests[r].status.Leading? ==> r in s'.flights)
  {
    assert FlightOk(s, AwaitedBy(s, id).value);
    assert RequestOk(s.requests[r]) && LoadOk(s, r);
  }

  /** With the profile request ended, the failing refresh is taken away and its leader is next to end. */
  lemma FailSound(s: State, id: RequestId)
    requires id in s.requests && SoundBut(s, Some(id)) && AwaitedBy(s, id).Some? && !s.requests[id].status.Ended?
    ensures var lead := AwaitedBy(s, id).value;
            var s' := GiveUp(SetStatus(s, id, Ended(false)).(flights := s.flights - {lead}));
            lead in s'.requests && SoundBut(s', Some(lead)) && s'.requests[lead].status.Leading?
  {
    var lead := AwaitedBy(s, id).value;
    var s' := GiveUp(SetStatus(s, id, Ended(false)).(flights := s.flights - {lead}));
    assert FlightOk(s, lead) && RequestOk(s.requests[id]);
    forall l | l in s'.flights ensures FlightOk(s', l) {
      assert FlightOk(s, l);
    }
    forall r | r in s'.requests ensures RequestOk(s'.requests[r]) && LoadOk(s', r) {
      assert RequestOk(s.requests[r]) && LoadOk(s, r);
    }
  }

  lemma {:induction false} SettleSound(s: State, id: RequestId, ok: bool)
    requires id in s.requests && SoundBut(s, Some(id)) && !s.requests[id].status.Ended?
    ensures Sound(Settle(s, id, ok))
    decreases |s.flights|
  {
    match AwaitedBy(s, id)
    case None => EndedSound(s, id, ok);
    case Some(lead) =>
      if ok {
        CompleteSound(s, id);
      } else {
        FailSound(s, id);
        SettleSound(GiveUp(SetStatus(s, id, Ended(false)).(flights := s.flights - {lead})), lead, false);
      }
  }

  lemma EndedSound(s: State, id: RequestId, ok: bool)
    requires id in s.requests && SoundBut(s, Some(id)) && !s.requests[id].status.Ended? && AwaitedBy(s, id).None?
    ensures Sound(SetStatus(s, id, Ended(ok)))
  {
    var s' := SetStatus(s, id, Ended(ok));
    assert RequestOk(s.requests[id]);
    forall l | l in s'.flights ensures FlightOk(s', l) {
      assert FlightOk(s, l);
    }
    forall r | r in s'.requests ensures RequestOk(s'.requests[r]) && LoadOk(s', r) {
      assert RequestOk(s.requests[r]) && LoadOk(s, r);
    }
  }

  /** The steps that bring no request to its end. */
  predicate Opens(e: Event) {
    e.Send? || e.Unauthorized? || e.TokenCame?
  }

  lemma OpensSound(s: State, e: Event)
    requires Sound(s) && Enabled(s, e) && Opens(e)
    ensures Sound(Next(s, e))
  {
    var s' := Next(s, e);
    forall l | l in s'.flights ensures FlightOk(s', l) {
      assert l in s.flights ==> FlightOk(s, l);
    }
    forall r | r in s'.requests ensures RequestOk(s'.requests[r]) && LoadOk(s', r) {
      assert r in s.requests ==> RequestOk(s.requests[r]) && LoadOk(s, r);
    }
  }

  lemma RefusedSound(s: State, lead: RequestId)
    requires Sound(s) && Enabled(s, TokenRefused(lead))
    ensures Sound(Next(s, TokenRefused(lead)))
  {
    var s1 := GiveUp(s.(flights := s.flights - {lead}));
    assert FlightOk(s, lead);
    forall l | l in s1.flights ensures FlightOk(s1, l) {
      assert FlightOk(s, l);
    }
    forall r | r in s1.requests ensures LoadOk(s1, r) {
      assert LoadOk(s, r);
    }
    SettleSound(s1, lead, false);
  }

  /** Everything is sound, save that `id` may be a profile request that no refresh waits for. */
  ghost predicate SoundSave(s: State, id: RequestId) {
    && (forall r | r in s.requests :: RequestOk(s.requests[r]) && (r != id ==> LoadOk(s, r)))
    && (s.refreshing ==> s.subject.None?)
    && (forall lead | lead in s.flights :: FlightOk(s, lead))
    && (forall r | r in s.requests && s.requests[r].status.Leading? :: r in s.flights)
  }

  lemma {:induction false} UnsubscribeSound(s: State, id: RequestId)
    requires id in s.requests && SoundSave(s, id) && !s.requests[id].status.Ended? && AwaitedBy(s, id).None?
    ensures Sound(Unsubscribe(s, id))
    decreases |s.flights|
  {
    var s1 := SetStatus(s, id, Ended(false)).(flights := s.flights - {id});
    if id in s.flights && s.flights[id].AwaitProfile? {
      assert FlightOk(s, id);
      GivenUpSound(s, id, s.flights[id].profile);
      UnsubscribeSound(s1, s.flights[id].profile);
    } else {
      GivenUpSound(s, id, id);
      assert LoadOk(s1, id);
    }
  }

  /** Without `id` and its refresh, only that refresh's profile request is left over. */
  lemma GivenUpSound(s: State, id: RequestId, profile: RequestId)
    requires id in s.requests && SoundSave(s, id) && AwaitedBy(s, id).None?
    requires if id in s.flights && s.flights[id].AwaitProfile? then profile == s.flights[id].profile else profile == id
    ensures SoundSave(SetStatus(s, id, Ended(false)).(flights := s.flights - {id}), profile)
  {
    var s1 := SetStatus(s, id, Ended(false)).(flights := s.flights - {id});
    assert RequestOk(s.requests[id]);
    forall l | l in s1.flights ensures FlightOk(s1, l) {
      assert FlightOk(s, l);
    }
    forall r | r in s1.requests ensures RequestOk(s1.requests[r]) && (r != profile ==> LoadOk(s1, r)) {
      assert RequestOk(s.requests[r]) && (r != id ==> LoadOk(s, r));
    }
  }

  lemma KeepsSound(s: State, e: Event)
    requires Sound(s) && Enabled(s, e)
    ensures Sound(Next(s, e))
  {
    match e
    case Answered(id, ok) => SettleSound(s, id, ok);
    case TokenRefused(lead) => RefusedSound(s, lead);
    case RetryAnswered(id, ok) =>
      var s1 := if s.requests[id].status.lead && !ok then GiveUp(s) else s;
      assert forall l | l in s1.flights :: FlightOk(s1, l) by {
        assert forall l | l in s.flights :: FlightOk(s, l);
      }
      assert forall r | r in s1.requests :: LoadOk(s1, r) by {
        assert forall r | r in s.requests :: LoadOk(s, r);
      }
      SettleSound(s1, id, ok);
    case Cancel(id) => UnsubscribeSound(s, id);
    case _ => OpensSound(s, e);
  }

  lemma {:induction false} AtMostOneRetry(ss: seq<State>, es: seq<Event>, n: nat, id: RequestId)
    requires Run(ss, es) && n <= |es|
    ensures Sound(ss[n]) && (id in ss[n].requests ==> ss[n].requests[id].retries <= 1)
  {
    if n > 0 {
      AtMostOneRetry(ss, es, n - 1, id);
      KeepsSound(ss[n - 1], es[n - 1]);
    }
    assert id in ss[n].requests ==> RequestOk(ss[n].requests[id]);
  }

  // ---- Single flight ----

  ghost predicate SingleFlight(s: State) {
    (s.flights != map[] ==> s.refreshing) && forall a, b | a in s.flights && b in s.flights :: a == b
  }

  /** The failing retry of a request that led an earlier refresh runs that refresh's error handler. */
  predicate LeaderRetryFails(s: State, e: Event) {
    && e.RetryAnswered? && !e.ok && e.id in s.requests
    && s.requests[e.id].status.Retried? && s.requests[e.id].status.lead
  }

  /** It does so while another refresh is on that does not wait for it, and lowers the flag that the other
  one raised. */
  predicate LowersAnothersFlag(s: State, e: Event) {
    LeaderRetryFails(s, e) && s.flights != map[] && AwaitedBy(s, e.id).None?
  }

  /** With one flight at most, taking it away or replacing it leaves at most one. */
  lemma LoneFlight(flights: map<RequestId, Flight>, lead: RequestId, f: Flight)
    requires lead in flights && forall a, b | a in flights && b in flights :: a == b
    ensures flights - {lead} == map[] && flights[lead := f] == map[lead := f]
  {}

  /** The end of a request ends the refresh that waits for it, and no other. */
  lemma SettleFlights(s: State, id: RequestId, ok: bool)
    requires id in s.requests && forall a, b | a in s.flights && b in s.flights :: a == b
    ensures var s' := Settle(s, id, ok);
            if AwaitedBy(s, id).Some? then s'.flights == map[] && !s'.refreshing
            else s'.flights == s.flights && s'.refreshing == s.refreshing
    decreases |s.flights|
  {
    if AwaitedBy(s, id).Some? {
      var lead := AwaitedBy(s, id).value;
      LoneFlight(s.flights, lead, AwaitToken);
      if !ok {
        SettleFlights(GiveUp(SetStatus(s, id, Ended(false)).(flights := s.flights - {lead})), lead, false);
      }
    }
  }

  lemma StartsAlone(s: State, id: RequestId)
    requires Sound(s) && SingleFlight(s) && HasStatus(s, id, Sent)
    ensures SingleFlight(Next(s, Unauthorized(id)))
  {
    var s' := Next(s, Unauthorized(id));
    if !s.refreshing {
      assert s.flights == map[];
      assert s'.flights == map[id := AwaitToken] && id in s'.flights;
    } else {
      assert s'.flights == s.flights;
    }
  }

  lemma RefusedAlone(s: State, lead: RequestId)
    requires SingleFlight(s) && Enabled(s, TokenRefused(lead))
    ensures SingleFlight(Next(s, TokenRefused(lead)))
  {
    LoneFlight(s.flights, lead, AwaitToken);
    SettleFlights(GiveUp(s.(flights := s.flights - {lead})), lead, false);
  }

  lemma RetryAlone(s: State, id: RequestId, ok: bool)
    requires SingleFlight(s) && Enabled(s, RetryAnswered(id, ok))
    ensures SingleFlight(Next(s, RetryAnswered(id, ok))) <==> !LowersAnothersFlag(s, RetryAnswered(id, ok))
  {
    var s1 := if s.requests[id].status.lead && !ok then GiveUp(s) else s;
    SettleFlights(s1, id, ok);
    assert AwaitedBy(s1, id) == AwaitedBy(s, id);
  }

  /** With one flight at most, giving a request up takes no other's flight away. */
  lemma UnsubscribeFlights(s: State, id: RequestId)
    requires id in s.requests && forall a, b | a in s.flights && b in s.flights :: a == b
    ensures Unsubscribe(s, id).refreshing == s.refreshing && Unsubscribe(s, id).flights == s.flights - {id}
    decreases |s.flights|
  {
    if id in s.flights {
      LoneFlight(s.flights, id, AwaitToken);
      if s.flights[id].AwaitProfile? && s.flights[id].profile in s.requests {
        var s1 := SetStatus(s, id, Ended(false)).(flights := s.flights - {id});
        UnsubscribeFlights(s1, s.flights[id].profile);
        assert s1.flights - {s.flights[id].profile} == map[];
      }
    }
  }

  /** Exactly that step breaks the single flight. */
  lemma SingleFlightKeptExactly(s: State, e: Event)
    requires Sound(s) && SingleFlight(s) && Enabled(s, e)
    ensures SingleFlight(Next(s, e)) <==> !LowersAnothersFlag(s, e)
  {
    match e
    case Send(id) => assert Next(s, e).flights == s.flights;
    case Answered(id, ok) => SettleFlights(s, id, ok);
    case Unauthorized(id) => StartsAlone(s, id);
    case TokenCame(lead, token, profile) => LoneFlight(s.flights, lead, AwaitProfile(token, profile));
    case TokenRefused(lead) => RefusedAlone(s, lead);
    case RetryAnswered(id, ok) => RetryAlone(s, id, ok);
    case Cancel(id) => UnsubscribeFlights(s, id);
  }

  lemma {:induction false} AtMostOneRefresh(ss: seq<State>, es: seq<Event>, n: nat)
    requires Run(ss, es) && n <= |es| && forall i | 0 <= i < n :: !LowersAnothersFlag(ss[i], es[i])
    ensures SingleFlight(ss[n]) && |ss[n].flights| <= 1
  {
    if n > 0 {
      AtMostOneRefresh(ss, es, n - 1);
      AtMostOneRetry(ss, es, n - 1, 0);
      SingleFlightKeptExactly(ss[n - 1], es[n - 1]);
    }
    if ss[n].flights != map[] {
      var a :| a in ss[n].flights;
      assert ss[n].flights.Keys == {a};
    }
  }

  ghost predicate Reached(s: State) {
    exists ss: seq<State>, es: seq<Event> :: Run(ss, es) && ss[|es|] == s
  }

  lemma ReachedNext(s: State, e: Event)
    requires Reached(s) && Enabled(s, e)
    ensures Reached(Next(s, e))
  {
    var ss: seq<State>, es: seq<Event> :| Run(ss, es) && ss[|es|] == s;
    assert Run(ss + [Next(s, e)], es + [e]);
  }

  const SENT := Request(Sent, 0, None)

  /** Request 0 has led a refresh and its retry is in the air; 1 and 2 wait for their first answer; 3 was
  the profile request. */
  const RETRY_OPEN :=
    State(map[0 := Request(Retried(7, true), 1, None), 1 := SENT, 2 := SENT, 3 := Request(Ended(true), 0, Some(0))],
          map[], false, Some(7), Some(7))

  lemma SentReached(sent: map<RequestId, Request>)
    requires sent == map[0 := SENT, 1 := SENT, 2 := SENT]
    ensures Reached(State(sent, map[], false, None, None))
  {
    assert Run([INITIAL], []);
    ReachedNext(INITIAL, Send(0));
    ReachedNext(State(map[0 := SENT], map[], false, None, None), Send(1));
    assert sent == map[0 := SENT, 1 := SENT][2 := SENT];
    ReachedNext(State(map[0 := SENT, 1 := SENT], map[], false, None, None), Send(2));
  }

  lemma RetryOpenReached()
    ensures Reached(RETRY_OPEN)
  {
    var sent := map[0 := SENT, 1 := SENT, 2 := SENT];
    SentReached(sent);
    ReachedNext(State(sent, map[], false, None, None), Unauthorized(0));
    var leading := sent[0 := Request(Leading, 0, None)];
    ReachedNext(State(leading, map[0 := AwaitToken], true, None, None), TokenCame(0, 7, 3));
    ProfileAnswered(leading);
  }

  lemma ProfileAnswered(leading: map<RequestId, Request>)
    requires leading == map[0 := Request(Leading, 0, None), 1 := SENT, 2 := SENT]
    requires Reached(State(leading[3 := Request(Sent, 0, Some(0))], map[0 := AwaitProfile(7, 3)], true, None, Some(7)))
    ensures Reached(RETRY_OPEN)
  {
    var waiting := State(leading[3 := Request(Sent, 0, Some(0))], map[0 := AwaitProfile(7, 3)], true, None, Some(7));
    assert AwaitedBy(waiting, 3) == Some(0);
    var s1 := SetStatus(waiting, 3, Ended(true));
    ProfileCompletes(s1, leading);
    ReachedNext(waiting, Answered(3, true));
  }

  lemma ProfileCompletes(s: State, leading: map<RequestId, Request>)
    requires leading == map[0 := Request(Leading, 0, None), 1 := SENT, 2 := SENT]
    requires s == State(leading[3 := Request(Ended(true), 0, Some(0))], map[0 := AwaitProfile(7, 3)], true, None,
                        Some(7))
    ensures Complete(s, 0) == RETRY_OPEN
  {
    assert Released(s.requests, 7) == s.requests;
    assert s.flights - {0} == map[];
  }

  /** Without that condition two refreshes can be in the air at once: request 0 leads one, its retry is
  still open when request 1 leads the next, the retry fails, and request 2 leads a third. */
  lemma TwoRefreshesAtOnce() returns (s: State)
    ensures Reached(s) && s.flights.Keys == {1, 2}
  {
    RetryOpenReached();
    ReachedNext(RETRY_OPEN, Unauthorized(1));
    var s1 := Next(RETRY_OPEN, Unauthorized(1));
    ReachedNext(s1, RetryAnswered(0, false));
    var s2 := Next(s1, RetryAnswered(0, false));
    ReachedNext(s2, Unauthorized(2));
    s := Next(s2, Unauthorized(2));
  }

  // ---- Parked requests ----

  /** The refresh that this step brings to success, if it does: its profile has come. */
  function Succeeds(s: State, e: Event): Option<RequestId> {
    if (e.Answered? || e.RetryAnswered?) && e.ok && e.id in s.requests then AwaitedBy(s, e.id) else None
  }

  lemma {:induction false} SettleParked(s: State, id: RequestId, ok: bool, r: RequestId)
    requires id in s.requests && SoundBut(s, Some(id)) && !s.requests[id].status.Ended?
    requires HasStatus(s, r, Parked) && r != id
    ensures var s' := Settle(s, id, ok);
            if ok && AwaitedBy(s, id).Some? then
              r in s'.requests
              && s'.requests[r] == Again(s.requests[r], s.flights[AwaitedBy(s, id).value].token, false)
            else HasStatus(s', r, Parked)
    decreases |s.flights|
  {
    if AwaitedBy(s, id).Some? {
      var lead := AwaitedBy(s, id).value;
      assert FlightOk(s, lead);
      if !ok {
        FailSound(s, id);
        SettleParked(GiveUp(SetStatus(s, id, Ended(false)).(flights := s.flights - {lead})), lead, false, r);
      }
    }
  }

  /** Whoever is given up with a request: the profile request of its refresh, and so on. */
  function GivenUp(s: State, id: RequestId): set<RequestId>
    requires id in s.requests
    decreases |s.flights|
  {
    if id in s.flights && s.flights[id].AwaitProfile? && s.flights[id].profile in s.requests then
      {id} + GivenUp(SetStatus(s, id, Ended(false)).(flights := s.flights - {id}), s.flights[id].profile)
    else {id}
  }

  predicate Spares(s: State, e: Event, r: RequestId) {
    e.Cancel? && e.id in s.requests ==> r !in GivenUp(s, e.id)
  }

  /** Those end and take their refreshes with them. Nothing else changes, the flag included. */
  lemma UnsubscribeExactly(s: State, id: RequestId)
    requires id in s.requests
    ensures var s' := Unsubscribe(s, id);
            && s' == s.(requests := s'.requests, flights := s.flights - GivenUp(s, id))
            && s'.requests.Keys == s.requests.Keys
            && forall r | r in s.requests :: s'.requests[r] == Without(s, id, r)
  {
    hide Unsubscribe, GivenUp;
    UnsubscribeEnds(s, id);
    forall r | r in s.requests ensures Unsubscribe(s, id).requests[r] == Without(s, id, r) {
      UnsubscribeRequest(s, id, r);
    }
  }

  function Without(s: State, id: RequestId, r: RequestId): Request
    requires id in s.requests && r in s.requests
  {
    if r in GivenUp(s, id) then s.requests[r].(status := Ended(false)) else s.requests[r]
  }

  lemma {:induction false} UnsubscribeEnds(s: State, id: RequestId)
    requires id in s.requests
    ensures var s' := Unsubscribe(s, id);
            && s' == s.(requests := s'.requests, flights := s.flights - GivenUp(s, id))
            && s'.requests.Keys == s.requests.Keys
    decreases |s.flights|
  {
    if id in s.flights && s.flights[id].AwaitProfile? && s.flights[id].profile in s.requests {
      var s1 := SetStatus(s, id, Ended(false)).(flights := s.flights - {id});
      UnsubscribeEnds(s1, s.flights[id].profile);
      assert s1.flights - GivenUp(s1, s.flights[id].profile) == s.flights - GivenUp(s, id);
    }
  }

  lemma {:induction false} UnsubscribeRequest(s: State, id: RequestId, r: RequestId)
    requires id in s.requests && r in s.requests
    ensures r in Unsubscribe(s, id).requests && Unsubscribe(s, id).requests[r] == Without(s, id, r)
    decreases |s.flights|
  {
    if id in s.flights && s.flights[id].AwaitProfile? && s.flights[id].profile in s.requests {
      var s1 := SetStatus(s, id, Ended(false)).(flights := s.flights - {id});
      UnsubscribeRequest(s1, s.flights[id].profile, r);
    }
  }

  lemma ParkedStep(s: State, e: Event, r: RequestId)
    requires Sound(s) && Enabled(s, e) && HasStatus(s, r, Parked) && Spares(s, e, r)
    ensures Succeeds(s, e).Some? ==>
              && r in Next(s, e).requests
              && Next(s, e).requests[r] == Again(s.requests[r], s.flights[Succeeds(s, e).value].token, false)
              && Next(s, e).requests[r].retries == 1
    ensures Succeeds(s, e).None? ==> HasStatus(Next(s, e), r, Parked)
  {
    assert RequestOk(s.requests[r]);
    match e
    case Answered(id, ok) => SettleParked(s, id, ok, r);
    case TokenRefused(lead) => RefusedParked(s, lead, r);
    case RetryAnswered(id, ok) => RetryParked(s, id, ok, r);
    case Cancel(id) => UnsubscribeExactly(s, id);
    case _ =>
  }

  lemma RefusedParked(s: State, lead: RequestId, r: RequestId)
    requires Sound(s) && Enabled(s, TokenRefused(lead)) && HasStatus(s, r, Parked)
    ensures HasStatus(Next(s, TokenRefused(lead)), r, Parked)
  {
    var s1 := GiveUp(s.(flights := s.flights - {lead}));
    assert FlightOk(s, lead);
    forall l | l in s1.flights ensures FlightOk(s1, l) {
      assert FlightOk(s, l);
    }
    forall q | q in s1.requests ensures LoadOk(s1, q) {
      assert LoadOk(s, q);
    }
    SettleParked(s1, lead, false, r);
  }

  lemma RetryParked(s: State, id: RequestId, ok: bool, r: RequestId)
    requires Sound(s) && Enabled(s, RetryAnswered(id, ok)) && HasStatus(s, r, Parked)
    ensures var (s', wins) := (Next(s, RetryAnswered(id, ok)), Succeeds(s, RetryAnswered(id, ok)));
            if wins.Some? then
              r in s'.requests && s'.requests[r] == Again(s.requests[r], s.flights[wins.value].token, false)
            else HasStatus(s', r, Parked)
  {
    var s1 := if s.requests[id].status.lead && !ok then GiveUp(s) else s;
    assert forall l | l in s1.flights :: FlightOk(s1, l) by {
      assert forall l | l in s.flights :: FlightOk(s, l);
    }
    assert forall q | q in s1.requests :: LoadOk(s1, q) by {
      assert forall q | q in s.requests :: LoadOk(s, q);
    }
    SettleParked(s1, id, ok, r);
  }

  /** A parked request that is not given up stays parked, through failed refreshes too, until a refresh
  succeeds, and is then sent again with that refresh's token. */
  lemma {:induction false} ParkedUntilSuccess(ss: seq<State>, es: seq<Event>, from: nat, n: nat, id: RequestId)
    requires Run(ss, es) && from <= n < |es| && HasStatus(ss[from], id, Parked)
    requires forall i | from <= i <= n :: Spares(ss[i], es[i], id)
    requires forall i | from <= i < n :: Succeeds(ss[i], es[i]).None?
    ensures HasStatus(ss[n], id, Parked)
    ensures var wins := Succeeds(ss[n], es[n]);
            if wins.Some? then
              && id in ss[n + 1].requests && ss[n + 1].requests[id].retries == 1
              && ss[n + 1].requests[id].status == Retried(ss[n].flights[wins.value].token, false)
            else HasStatus(ss[n + 1], id, Parked)
  {
    if from < n {
      ParkedUntilSuccess(ss, es, from, n - 1, id);
    }
    AtMostOneRetry(ss, es, n, id);
    ParkedStep(ss[n], es[n], id);
  }

  /** Nothing is left parked by a refresh that succeeds. */
  lemma SuccessReleasesAll(s: State, e: Event, r: RequestId)
    requires Sound(s) && Enabled(s, e) && Succeeds(s, e).Some?
    ensures !HasStatus(Next(s, e), r, Parked)
    ensures Next(s, e).subject == Some(s.flights[Succeeds(s, e).value].token) && !Next(s, e).refreshing
  {}

  // ---- A profile request answered 401 ----

  /** The one refresh that is on waits for a profile request that is parked behind it. */
  ghost predicate Stuck(s: State, lead: RequestId) {
    && SingleFlight(s) && lead in s.flights && s.flights[lead].AwaitProfile?
    && HasStatus(s, s.flights[lead].profile, Parked)
  }

  /** So it is as soon as that request is answered 401. */
  lemma GetsStuck(s: State, lead: RequestId)
    requires Sound(s) && SingleFlight(s) && lead in s.flights && s.flights[lead].AwaitProfile?
    requires Enabled(s, Unauthorized(s.flights[lead].profile))
    ensures Stuck(Next(s, Unauthorized(s.flights[lead].profile)), lead)
  {
    StartsAlone(s, s.flights[lead].profile);
  }

  lemma StuckReached() returns (s: State)
    ensures Reached(s) && Stuck(s, 0)
  {
    assert Run([INITIAL], []);
    ReachedNext(INITIAL, Send(0));
    var s1 := Next(INITIAL, Send(0));
    ReachedNext(s1, Unauthorized(0));
    var s2 := Next(s1, Unauthorized(0));
    ReachedNext(s2, TokenCame(0, 7, 1));
    var s3 := Next(s2, TokenCame(0, 7, 1));
    GetsStuck(s3, 0);
    ReachedNext(s3, Unauthorized(1));
    s := Next(s3, Unauthorized(1));
  }

  lemma StuckStep(s: State, e: Event, lead: RequestId)
    requires Sound(s) && Stuck(s, lead) && Enabled(s, e) && !LowersAnothersFlag(s, e) && e != Cancel(lead)
    ensures Stuck(Next(s, e), lead) && Succeeds(s, e).None?
  {
    SingleFlightKeptExactly(s, e);
    assert forall l | l in s.flights :: l == lead;
    assert FlightOk(s, lead);
    ParkedStep(s, e, s.flights[lead].profile);
    StuckFlight(s, e, lead);
  }

  lemma StuckFlight(s: State, e: Event, lead: RequestId)
    requires Sound(s) && Stuck(s, lead) && Enabled(s, e) && e != Cancel(lead)
    ensures Next(s, e).flights == s.flights
  {
    match e
    case Answered(id, ok) => SettleFlights(s, id, ok);
    case RetryAnswered(id, ok) =>
      SettleFlights(if s.requests[id].status.lead && !ok then GiveUp(s) else s, id, ok);
    case Cancel(id) => UnsubscribeFlights(s, id);
    case _ =>
  }

  /** Such a refresh never ends: until a retry lowers its flag or its leader is given up it stays on, and
  whatever is parked, its own profile request included, stays parked. */
  lemma {:induction false} StuckForGood(ss: seq<State>, es: seq<Event>, from: nat, n: nat, lead: RequestId,
      r: RequestId)
    requires Run(ss, es) && from <= n <= |es| && Stuck(ss[from], lead) && HasStatus(ss[from], r, Parked)
    requires forall i | from <= i < n ::
               !LowersAnothersFlag(ss[i], es[i]) && es[i] != Cancel(lead) && es[i] != Cancel(r)
    ensures Stuck(ss[n], lead) && HasStatus(ss[n], r, Parked)
  {
    if from < n {
      StuckForGood(ss, es, from, n - 1, lead, r);
      AtMostOneRetry(ss, es, n - 1, r);
      StuckStep(ss[n - 1], es[n - 1], lead);
      ParkedStep(ss[n - 1], es[n - 1], r);
    }
  }

  /** Once its flag has been lowered, a later refresh that succeeds sets it going again: the profile request
  goes out anew, and its answer completes the first refresh with the token that it had. */
  lemma ResumesAfterSuccess(s: State, e: Event, lead: RequestId)
    requires Sound(s) && Enabled(s, e) && Succeeds(s, e).Some? && Succeeds(s, e) != Some(lead)
    requires lead in s.flights && s.flights[lead].AwaitProfile? && HasStatus(s, s.flights[lead].profile, Parked)
    ensures var s1 := Next(s, e);
            var answer := RetryAnswered(s.flights[lead].profile, true);
            && Enabled(s1, answer) && Succeeds(s1, answer) == Some(lead)
            && lead !in Next(s1, answer).flights && Next(s1, answer).subject == Some(s.flights[lead].token)
  {
    assert FlightOk(s, lead);
    ParkedStep(s, e, s.flights[lead].profile);
  }

  // ---- A leader given up during its refresh ----

  /** The flag is up and no refresh is on. */
  predicate Stranded(s: State) {
    s.refreshing && s.flights == map[]
  }

  /** Only the giving up of a refresh's leader does that. */
  lemma StrandsExactly(s: State, e: Event)
    requires Sound(s) && SingleFlight(s) && !Stranded(s) && Enabled(s, e)
    ensures Stranded(Next(s, e)) <==> e.Cancel? && e.id in s.flights
  {
    match e
    case Answered(id, ok) => SettleFlights(s, id, ok);
    case TokenRefused(lead) =>
      LoneFlight(s.flights, lead, AwaitToken);
      SettleFlights(GiveUp(s.(flights := s.flights - {lead})), lead, false);
    case RetryAnswered(id, ok) =>
      SettleFlights(if s.requests[id].status.lead && !ok then GiveUp(s) else s, id, ok);
    case Cancel(id) => GivesUpFlight(s, id);
    case TokenCame(lead, token, profile) => assert lead in Next(s, e).flights;
    case Unauthorized(id) => assert !s.refreshing ==> id in Next(s, e).flights;
    case Send(id) =>
  }

  lemma GivesUpFlight(s: State, id: RequestId)
    requires SingleFlight(s) && !Stranded(s) && Enabled(s, Cancel(id))
    ensures Stranded(Next(s, Cancel(id))) <==> id in s.flights
  {
    UnsubscribeFlights(s, id);
    if id in s.flights {
      LoneFlight(s.flights, id, AwaitToken);
    } else if s.flights != map[] {
      var l :| l in s.flights;
      assert l in s.flights - {id};
    }
  }

  /** The failing retry of an earlier leader, and nothing else, takes the flag down again. */
  lemma StrandedKeptExactly(s: State, e: Event)
    requires Sound(s) && Stranded(s) && Enabled(s, e)
    ensures Stranded(Next(s, e)) <==> !LeaderRetryFails(s, e)
    ensures e.Unauthorized? ==> HasStatus(Next(s, e), e.id, Parked)
  {}

  /** Until then every request answered 401 parks, and whatever is parked stays so. */
  lemma {:induction false} StrandedForGood(ss: seq<State>, es: seq<Event>, from: nat, n: nat, r: RequestId)
    requires Run(ss, es) && from <= n <= |es| && Stranded(ss[from]) && HasStatus(ss[from], r, Parked)
    requires forall i | from <= i < n :: !LeaderRetryFails(ss[i], es[i]) && es[i] != Cancel(r)
    ensures Stranded(ss[n]) && HasStatus(ss[n], r, Parked)
  {
    if from < n {
      StrandedForGood(ss, es, from, n - 1, r);
      AtMostOneRetry(ss, es, n - 1, r);
      StrandedKeptExactly(ss[n - 1], es[n - 1]);
      ParkedStep(ss[n - 1], es[n - 1], r);
    }
  }

  /** A request sent, answered 401 and given up at once is enough. */
  lemma StrandedByCancel() returns (s: State)
    ensures Reached(s) && Stranded(s)
  {
    assert Run([INITIAL], []);
    ReachedNext(INITIAL, Send(0));
    var s1 := Next(INITIAL, Send(0));
    ReachedNext(s1, Unauthorized(0));
    var s2 := Next(s1, Unauthorized(0));
    ReachedNext(s2, Cancel(0));
    s := Next(s2, Cancel(0));
  }

  // ---- The interceptor as code ----

  class Interceptor {
    var requests: map<RequestId, Request>
    var flights: map<RequestId, Flight>
    var refreshing: bool
    var refreshSubject: Option<Token>
    var accessToken: Option<Token>

    ghost function Now(): State
      reads this
    {
      State(requests, flights, refreshing, refreshSubject, accessToken)
    }

    constructor ()
      ensures Now() == INITIAL
    {
      requests, flights, refreshing, refreshSubject, accessToken := map[], map[], false, None, None;
    }

    method SetStatus(id: RequestId, st: Status)
      requires id in requests
      modifies this`requests
      ensures requests == old(requests)[id := old(requests)[id].(status := st)]
    {
      requests := requests[id := requests[id].(status := st)];
    }

    method SendAgain(id: RequestId, token: Token, lead: bool)
      requires id in requests
      modifies this`requests
      ensures requests == old(requests)[id := Again(old(requests)[id], token, lead)]
    {
      requests := requests[id := Request(Retried(token, lead), requests[id].retries + 1, requests[id].loads)];
    }

    /** The handler of a 401 to a first attempt. */
    method OnUnauthorized(id: RequestId)
      requires Enabled(Now(), Unauthorized(id))
      modifies this
      ensures Now() == Next(old(Now()), Unauthorized(id))
    {
      if !refreshing {
        refreshing := true;
        refreshSubject := None;
        flights := flights[id := AwaitToken];
        SetStatus(id, Leading);
      } else if refreshSubject.Some? {
        SendAgain(id, refreshSubject.value, false);
      } else {
        SetStatus(id, Parked);
      }
    }

    /** The token has come, and the profile is asked for. */
    method OnToken(lead: RequestId, token: Token, profile: RequestId)
      requires Enabled(Now(), TokenCame(lead, token, profile))
      modifies this
      ensures Now() == Next(old(Now()), TokenCame(lead, token, profile))
    {
      accessToken := Some(token);
      requests := requests[profile := Request(Sent, 0, Some(lead))];
      flights := flights[lead := AwaitProfile(token, profile)];
    }

    /** The profile has come: lower the flag, release the parked requests, retry the leading one. */
    method OnProfile(lead: RequestId)
      requires lead in flights && lead in requests && flights[lead].AwaitProfile?
      modifies this
      ensures Now() == Complete(old(Now()), lead)
    {
      var newToken := flights[lead].token;
      refreshing := false;
      flights := flights - {lead};
      NextToken(newToken);
      SendAgain(lead, newToken, true);
    }

    /** `refreshSubject.next(newToken)` runs each subscriber in turn. */
    method NextToken(token: Token)
      modifies this`refreshSubject, this`requests
      ensures refreshSubject == Some(token) && requests == Released(old(requests), token)
    {
      refreshSubject := Some(token);
      var todo := set id | id in requests && requests[id].status == Parked;
      ghost var all := todo;
      while todo != {}
        invariant todo <= all && requests.Keys == old(requests).Keys
        invariant forall id | id in requests ::
                    requests[id] ==
                    if id in all - todo then Again(old(requests)[id], token, false) else old(requests)[id]
        modifies this`requests
        decreases todo
      {
        var id :| id in todo;
        SendAgain(id, token, false);
        todo := todo - {id};
      }
    }

    /** The error handler around a refresh; the error goes on to whoever waits for the leader. */
    method OnRefreshFailed(lead: RequestId)
      requires lead in flights && lead in requests
      modifies this
      ensures Now() == Fail(old(Now()), lead)
      decreases |flights|, 0
    {
      flights := flights - {lead};
      Abandon();
      OnEnd(lead, false);
    }

    /** The end of a request, as its subscriber sees it. */
    method OnEnd(id: RequestId, ok: bool)
      requires id in requests
      modifies this
      ensures Now() == Settle(old(Now()), id, ok)
      decreases |flights|, 1
    {
      SetStatus(id, Ended(ok));
      var loads := requests[id].loads;
      if loads.Some? {
        var lead := loads.value;
        if lead in requests && lead in flights && flights[lead].AwaitProfile? && flights[lead].profile == id {
          if ok {
            OnProfile(lead);
          } else {
            OnRefreshFailed(lead);
          }
        }
      }
    }

    method Abandon()
      modifies this`refreshing, this`refreshSubject, this`accessToken
      ensures Now() == GiveUp(old(Now()))
    {
      refreshing := false;
      refreshSubject := None;
      accessToken := None;
    }

    /** The subscriber of a request unsubscribes: no handler runs, and what the request waits for is
    unsubscribed from. */
    method OnUnsubscribe(id: RequestId)
      requires id in requests
      modifies this`requests, this`flights
      ensures Now() == Unsubscribe(old(Now()), id)
      decreases |flights|
    {
      SetStatus(id, Ended(false));
      if id in flights {
        var flight := flights[id];
        flights := flights - {id};
        if flight.AwaitProfile? && flight.profile in requests {
          OnUnsubscribe(flight.profile);
        }
      } else {
        assert flights - {id} == flights;
      }
    }

    method OnRetryAnswered(id: RequestId, ok: bool)
      requires Enabled(Now(), RetryAnswered(id, ok))
      modifies this
      ensures Now() == Next(old(Now()), RetryAnswered(id, ok))
    {
      if requests[id].status.lead && !ok {
        Abandon();
      }
      OnEnd(id, ok);
    }
  }
}
