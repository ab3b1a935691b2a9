/** `EpiasClient`: sends a JSON request to the transparency service with the
    current ticket, and on a 401 or 406 answer (the ticket was refused) fetches a
    new ticket once and sends the same request once more. The HTTP session is an
    object whose replies the model does not know in advance. */
module Epias {
  import opened Wrappers
  import opened Json
  import opened Requests
  import opened Auth

  const Base: string := "https://seffaflik.epias.com.tr/electricity-service/v1"

  /** A reply from the data service: its status, and its body decoded as JSON, or
      None when the body is not JSON. */
  datatype HttpReply = HttpReply(status: int, json: Option<Json>)

  type Headers = seq<(string, string)>

  /** A request as the session sent it. */
  datatype Sent = Sent(verb: string, url: string, headers: Headers, body: Json)

  /** The headers of every request, in the order the client builds them. */
  function HeadersFor(ticket: string): (h: Headers)
    ensures |h| == 4 && h[0] == (TokenHeader, ticket)
    ensures h[1..] == [("Accept", "application/json"), ("Content-Type", "application/json"),
                       ("Accept-Language", "en")]
  {
    [(TokenHeader, ticket), ("Accept", "application/json"), ("Content-Type", "application/json"),
     ("Accept-Language", "en")]
  }

  /** The statuses with which the service refuses a ticket: 401 Unauthorized and
      406 Not Acceptable (sections 15.5.2 and 15.5.7 of RFC 9110). */
  predicate Refused(status: int) {
    status == 401 || status == 406
  }

  /** The end of a request: a 4xx or 5xx status raises, and otherwise the body is
      decoded, which raises when it is not JSON. */
  function Finish(reply: HttpReply): (r: Result<Json>)
    ensures r.Ok? <==> !RaisesForStatus(reply.status) && reply.json.Some?
    ensures r.Ok? ==> r.value == reply.json.value
    ensures RaisesForStatus(reply.status) ==> r == Err(HttpError(reply.status))
    ensures !RaisesForStatus(reply.status) && r.Err? ==> r.error == JsonDecodeError
  {
    var _ :- RaiseForStatus(reply.status);
    match reply.json
    case Some(j) => Ok(j)
    case None => Err(JsonDecodeError)
  }

  /** A refused ticket is never the end of the story: when the retry is refused as
      well, the call raises with that status. */
  lemma RefusedTwiceRaises(reply: HttpReply)
    requires Refused(reply.status)
    ensures Finish(reply) == Err(HttpError(reply.status))
  {
  }

  /** Headers as the client builds them, around a ticket of the right shape. */
  predicate CarriesTicket(h: Headers) {
    |h| == 4 && h == HeadersFor(h[0].1) && IsTicket(h[0].1)
  }

  /** Everything one `_request` call does: the requests it sends, what it returns or
      raises, the ticket manager's fields afterwards, and how many clock readings and
      login posts it uses up. */
  datatype Exchange = Exchange(sent: seq<Sent>, result: Result<Json>, state: TgtState, readings: nat, logins: nat)

  /** The unforced `current()` that supplies the first ticket: the clock's reading
      number `readings` for the expiry test, the login server's reply number `posts`,
      and the next reading once a new ticket is in. */
  function FirstStep(s: TgtState, clock: Clock, cas: CasServer, readings: nat, posts: nat): Outcome
    requires Consistent(s)
  {
    CurrentStep(s, false, clock.at(readings), cas.reply(posts), clock.at(readings + 1))
  }

  /** The forced `current(force_refresh=True)` after a refused reply, taken from where
      the first step left the manager, the clock and the login server. (When the
      first step failed there is no retry, and the first outcome stands.) */
  function RetryStep(o1: Outcome, clock: Clock, cas: CasServer, readings: nat, posts: nat): Outcome
    requires Consistent(o1.state)
  {
    if o1.result.Err? then o1
    else
      var rd := readings + 1 + (if o1.fetched then 1 else 0);
      CurrentStep(o1.state, true, clock.at(rd), cas.reply(posts + (if o1.fetched then 1 else 0)), clock.at(rd))
  }

  /** How the two `current` outcomes and the session's replies make up a call. */
  function Combine(o1: Outcome, o2: Outcome, reply: nat -> HttpReply, n0: nat,
                   verb: string, url: string, body: Json): Exchange
  {
    var used1 := 1 + (if o1.fetched && o1.result.Ok? then 1 else 0);
    var logins1 := if o1.fetched then 1 else 0;
    match o1.result
    case Err(err) => Exchange([], Err(err), o1.state, used1, logins1)
    case Ok(t1) =>
      var first := Sent(verb, url, HeadersFor(t1), body);
      if !Refused(reply(n0).status) then
        Exchange([first], Finish(reply(n0)), o1.state, used1, logins1)
      else
        match o2.result
        case Err(err) => Exchange([first], Err(err), o2.state, used1, logins1 + 1)
        case Ok(t2) =>
          Exchange([first, Sent(verb, url, HeadersFor(t2), body)], Finish(reply(n0 + 1)), o2.state,
                   used1 + 1, logins1 + 1)
  }

  /** `_request(method, path, json=body)` from manager state `s`: the session answers
      its `n0`-th request with `reply(n0)`. A ticket failure raises before anything is
      sent; a first reply that does not refuse the ticket is finished; a refused one
      leads to a forced refresh and, when that succeeds, one resend whose reply is
      finished. */
  function Transact(s: TgtState, clock: Clock, cas: CasServer, reply: nat -> HttpReply,
                    readings: nat, posts: nat, n0: nat, verb: string, url: string, body: Json): (e: Exchange)
    requires Consistent(s)
  {
    var o1 := FirstStep(s, clock, cas, readings, posts);
    Combine(o1, RetryStep(o1, clock, cas, readings, posts), reply, n0, verb, url, body)
  }

  /** The shape of every exchange: at most two sends, all to the same address with
      the same method, body and well-formed headers; the first carries the ticket
      the manager hands out and the second only follows a refused first reply;
      without a send the call raises, and otherwise the result is the last reply
      finished or the retry's ticket failure. */
  lemma TransactShape(s: TgtState, clock: Clock, cas: CasServer, reply: nat -> HttpReply,
                      readings: nat, posts: nat, n0: nat, verb: string, url: string, body: Json)
    requires Consistent(s)
    ensures var e := Transact(s, clock, cas, reply, readings, posts, n0, verb, url, body);
            var o1 := FirstStep(s, clock, cas, readings, posts);
            && |e.sent| <= 2
            && (forall k :: 0 <= k < |e.sent| ==>
                  e.sent[k].verb == verb && e.sent[k].url == url && e.sent[k].body == body
                  && CarriesTicket(e.sent[k].headers))
            && (e.sent == [] <==> o1.result.Err?)
            && (e.sent == [] ==> e.result == Err(o1.result.error))
            && (e.sent != [] ==> e.sent[0].headers == HeadersFor(o1.result.value))
            && (|e.sent| == 2 ==> Refused(reply(n0).status) && e.result == Finish(reply(n0 + 1)))
            && (|e.sent| == 1 && !Refused(reply(n0).status) ==> e.result == Finish(reply(n0)))
            && (|e.sent| == 1 && Refused(reply(n0).status) ==>
                  e.result == Err(RetryStep(o1, clock, cas, readings, posts).result.error))
  {
    var e := Transact(s, clock, cas, reply, readings, posts, n0, verb, url, body);
    var o1 := FirstStep(s, clock, cas, readings, posts);
    if o1.result.Ok? {
      assert IsTicket(o1.result.value);
      if Refused(reply(n0).status) {
        var o2 := RetryStep(o1, clock, cas, readings, posts);
        if o2.result.Ok? {
          assert IsTicket(o2.result.value);
        }
      }
    }
  }

  /** The forced refresh always goes to the login server, and its ticket is the one
      that server's next reply holds. */
  lemma RetryTicketIssued(o1: Outcome, clock: Clock, cas: CasServer, readings: nat, posts: nat)
    requires Consistent(o1.state) && o1.result.Ok?
    ensures var o2 := RetryStep(o1, clock, cas, readings, posts);
            o2.fetched && o2.result == TicketFrom(cas.reply(posts + (if o1.fetched then 1 else 0)))
  {
    var rd := readings + 1 + (if o1.fetched then 1 else 0);
    ForceFetches(o1.state, clock.at(rd), cas.reply(posts + (if o1.fetched then 1 else 0)), clock.at(rd));
  }

  /** The retry the client promises: when the first reply refuses the ticket and the
      forced refresh succeeds, the request goes out exactly once more, with the
      refreshed ticket (the login server's, by RetryTicketIssued), and that second
      reply decides the result. */
  lemma RefusedThenRetried(s: TgtState, clock: Clock, cas: CasServer, reply: nat -> HttpReply,
                           readings: nat, posts: nat, n0: nat, verb: string, url: string, body: Json)
    requires Consistent(s)
    requires FirstStep(s, clock, cas, readings, posts).result.Ok?
    requires Refused(reply(n0).status)
    requires RetryStep(FirstStep(s, clock, cas, readings, posts), clock, cas, readings, posts).result.Ok?
    ensures var e := Transact(s, clock, cas, reply, readings, posts, n0, verb, url, body);
            var o2 := RetryStep(FirstStep(s, clock, cas, readings, posts), clock, cas, readings, posts);
            && |e.sent| == 2
            && e.sent[1].headers == HeadersFor(o2.result.value)
            && e.result == Finish(reply(n0 + 1))
            && e.state == o2.state
            && e.state.token == Some(o2.result.value)
  {
  }

  /** A ticket still inside its lifetime goes out unchanged and costs no login; a
      reply that accepts it is the whole exchange. */
  lemma CachedTicketSent(s: TgtState, clock: Clock, cas: CasServer, reply: nat -> HttpReply,
                         readings: nat, posts: nat, n0: nat, verb: string, url: string, body: Json)
    requires Consistent(s)
    requires clock.at(readings) < s.expiresAt
    requires !Refused(reply(n0).status)
    ensures var e := Transact(s, clock, cas, reply, readings, posts, n0, verb, url, body);
            && e.sent == [Sent(verb, url, HeadersFor(s.token.value), body)]
            && e.result == Finish(reply(n0))
            && e.state == s && e.logins == 0 && e.readings == 1
  {
    CachedUntilExpiry(s, clock.at(readings), cas.reply(posts), clock.at(readings + 1));
  }

  /** The HTTP session: it records every request sent through it. */
  class Session {
    const reply: nat -> HttpReply
    var sent: seq<Sent>

    constructor (reply: nat -> HttpReply)
      ensures this.reply == reply && sent == []
    {
      this.reply := reply;
      sent := [];
    }

    method Request(verb: string, url: string, headers: Headers, body: Json) returns (resp: HttpReply)
      modifies this
      ensures sent == old(sent) + [Sent(verb, url, headers, body)]
      ensures resp == reply(|old(sent)|)
    {
      resp := reply(|sent|);
      sent := sent + [Sent(verb, url, headers, body)];
    }
  }

  class EpiasClient {
    const session: Session
    const tgtMgr: TgtManager

    predicate Valid()
      reads this, tgtMgr
    {
      tgtMgr.Valid()
    }

    constructor (username: string, password: string, session: Session, clock: Clock, cas: CasServer)
      ensures this.session == session
      ensures tgtMgr.username == username && tgtMgr.password == password
      ensures tgtMgr.clock == clock && tgtMgr.cas == cas
      ensures tgtMgr.State() == Initial && tgtMgr.forced == 0
      ensures fresh(tgtMgr)
      ensures Valid()
    {
      this.session := session;
      tgtMgr := new TgtManager(username, password, clock, cas);
    }

    /** `get(path, **params)`: a GET whose JSON body is the keyword arguments. */
    method Get(path: string, params: Fields) returns (r: Result<Json>)
      requires Valid()
      modifies session, tgtMgr, tgtMgr.clock, tgtMgr.cas
      ensures Valid()
      ensures var e := Transact(old(tgtMgr.State()), tgtMgr.clock, tgtMgr.cas, session.reply,
                                old(tgtMgr.clock.readings), old(|tgtMgr.cas.posts|), old(|session.sent|),
                                "GET", Base + path, JObj(params));
              && session.sent == old(session.sent) + e.sent
              && r == e.result && tgtMgr.State() == e.state
              && tgtMgr.clock.readings == old(tgtMgr.clock.readings) + e.readings
              && |tgtMgr.cas.posts| == old(|tgtMgr.cas.posts|) + e.logins
    {
      r := Request("GET", path, JObj(params));
    }

    /** `post(path, **payload)`: a POST whose JSON body is the keyword arguments. */
    method Post(path: string, payload: Fields) returns (r: Result<Json>)
      requires Valid()
      modifies session, tgtMgr, tgtMgr.clock, tgtMgr.cas
      ensures Valid()
      ensures var e := Transact(old(tgtMgr.State()), tgtMgr.clock, tgtMgr.cas, session.reply,
                                old(tgtMgr.clock.readings), old(|tgtMgr.cas.posts|), old(|session.sent|),
                                "POST", Base + path, JObj(payload));
              && session.sent == old(session.sent) + e.sent
              && r == e.result && tgtMgr.State() == e.state
              && tgtMgr.clock.readings == old(tgtMgr.clock.readings) + e.readings
              && |tgtMgr.cas.posts| == old(|tgtMgr.cas.posts|) + e.logins
    {
      r := Request("POST", path, JObj(payload));
    }

    /** The second attempt after a refused ticket: a forced refresh, then the same
      request once more with the new ticket. A failed refresh raises before
      anything is sent. `o1` is the first attempt's `current()` outcome, taken with
      the clock at reading `rd0` and the login server at reply `p0`. */
    method Resend(verb: string, url: string, body: Json, ghost o1: Outcome, ghost rd0: nat, ghost p0: nat)
      returns (r: Result<HttpReply>)
      requires Valid() && Consistent(o1.state) && o1.result.Ok?
      requires tgtMgr.State() == o1.state
      requires tgtMgr.clock.readings == rd0 + 1 + (if o1.fetched then 1 else 0)
      requires |tgtMgr.cas.posts| == p0 + (if o1.fetched then 1 else 0)
      modifies session, tgtMgr, tgtMgr.clock, tgtMgr.cas
      ensures Valid()
      ensures tgtMgr.forced == old(tgtMgr.forced) + 1
      ensures var o := RetryStep(o1, tgtMgr.clock, tgtMgr.cas, rd0, p0);
              && tgtMgr.State() == o.state
              && |tgtMgr.cas.posts| == old(|tgtMgr.cas.posts|) + 1
              && tgtMgr.clock.readings == old(tgtMgr.clock.readings) + (if o.result.Ok? then 1 else 0)
              && (r.Err? <==> o.result.Err?)
              && (r.Err? ==> r.error == o.result.error && session.sent == old(session.sent))
              && (r.Ok? ==> session.sent == old(session.sent) + [Sent(verb, url, HeadersFor(o.result.value), body)]
                            && r.value == session.reply(old(|session.sent|)))
    {
      var renewed :- tgtMgr.Current(true);
      var resp := session.Request(verb, url, HeadersFor(renewed), body);
      r := Ok(resp);
    }

    /** The first attempt: an unforced `current()` for the ticket, then one send with
      it. A ticket failure raises before anything is sent. */
    method FirstAttempt(verb: string, url: string, body: Json) returns (r: Result<HttpReply>)
      requires Valid()
      modifies session, tgtMgr, tgtMgr.clock, tgtMgr.cas
      ensures Valid()
      ensures tgtMgr.forced == old(tgtMgr.forced)
      ensures var o := FirstStep(old(tgtMgr.State()), tgtMgr.clock, tgtMgr.cas, old(tgtMgr.clock.readings),
                                 old(|tgtMgr.cas.posts|));
              && tgtMgr.State() == o.state
              && |tgtMgr.cas.posts| == old(|tgtMgr.cas.posts|) + (if o.fetched then 1 else 0)
              && tgtMgr.clock.readings == old(tgtMgr.clock.readings) + 1 + (if o.fetched && o.result.Ok? then 1 else 0)
              && (r.Err? <==> o.result.Err?)
              && (r.Err? ==> r.error == o.result.error && session.sent == old(session.sent))
              && (r.Ok? ==> session.sent == old(session.sent) + [Sent(verb, url, HeadersFor(o.result.value), body)]
                            && r.value == session.reply(old(|session.sent|)))
    {
      var ticket :- tgtMgr.Current(false);
      var resp := session.Request(verb, url, HeadersFor(ticket), body);
      r := Ok(resp);
    }

    /** `_request`: exactly the exchange Transact describes, from the manager's
      fields, the clock, the login server and the session as they stand; a forced
      refresh happens exactly when a sent request is refused. */
    method Request(verb: string, path: string, body: Json) returns (r: Result<Json>)
      requires Valid()
      modifies session, tgtMgr, tgtMgr.clock, tgtMgr.cas
      ensures Valid()
      ensures var e := Transact(old(tgtMgr.State()), tgtMgr.clock, tgtMgr.cas, session.reply,
                                old(tgtMgr.clock.readings), old(|tgtMgr.cas.posts|), old(|session.sent|),
                                verb, Base + path, body);
              && session.sent == old(session.sent) + e.sent
              && r == e.result && tgtMgr.State() == e.state
              && tgtMgr.clock.readings == old(tgtMgr.clock.readings) + e.readings
              && |tgtMgr.cas.posts| == old(|tgtMgr.cas.posts|) + e.logins
      ensures tgtMgr.forced == old(tgtMgr.forced) + 1 <==>
                |session.sent| > old(|session.sent|) && Refused(session.reply(old(|session.sent|)).status)
      ensures tgtMgr.forced <= old(tgtMgr.forced) + 1
    {
      ghost var n0 := |session.sent|;
      ghost var rd0 := tgtMgr.clock.readings;
      ghost var p0 := |tgtMgr.cas.posts|;
      ghost var o1 := FirstStep(tgtMgr.State(), tgtMgr.clock, tgtMgr.cas, rd0, p0);
      ghost var o2 := RetryStep(o1, tgtMgr.clock, tgtMgr.cas, rd0, p0);
      var url := Base + path;
      var first := FirstAttempt(verb, url, body);
      if first.Err? {
        return Err(first.error);
      }
      var resp := first.value;
      if Refused(resp.status) {
        var again := Resend(verb, url, body, o1, rd0, p0);
        if again.Err? {
          return Err(again.error);
        }
        resp := again.value;
      }
      r := Finish(resp);
    }
  }
}
