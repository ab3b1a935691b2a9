/** The status rule the `requests` library applies in `raise_for_status`. */
module Requests {
  import opened Wrappers

  /** `raise_for_status` raises for the client-error (4xx) and server-error (5xx)
      classes and for nothing else. */
  predicate RaisesForStatus(status: int) {
    400 <= status < 600
  }

  function RaiseForStatus(status: int): (r: Result<()>)
    ensures r.Err? <==> RaisesForStatus(status)
    ensures r.Err? ==> r.error == HttpError(status)
  {
    if RaisesForStatus(status) then Err(HttpError(status)) else Ok(())
  }
}

/** `TGTManager`: fetches a ticket-granting ticket (TGT) from the EPİAŞ login
    server and keeps it until shortly before it expires. The wall clock and the
    login server are objects whose answers the model does not know in advance: each
    is an oracle indexed by how many times it has been asked. */
module Auth {
  import opened Wrappers
  import opened Strings
  import opened Requests

  const AuthUrl: string := "https://giris.epias.com.tr/cas/v1/tickets"

  /** The name of the header that carries the ticket on every data call. */
  const TokenHeader: string := "TGT"

  /** How long a ticket is valid: two hours, in seconds. */
  const TtlSeconds: real := 7200.0

  /** How long before the end of its validity a ticket is replaced, in seconds. */
  const EarlyRefresh: real := 60.0

  /** A reading of `time.time()`: seconds since the epoch. */
  type Seconds = x: real | 0.0 <= x

  /** The wall clock. */
  class Clock {
    const at: nat -> Seconds
    var readings: nat

    constructor (at: nat -> Seconds)
      ensures this.at == at && readings == 0
    {
      this.at := at;
      readings := 0;
    }

    /** `time.time()` */
    method Time() returns (t: Seconds)
      modifies this
      ensures readings == old(readings) + 1
      ensures t == at(old(readings))
    {
      t := at(readings);
      readings := readings + 1;
    }
  }

  /** The status and the text of a reply from the login server. */
  datatype TextReply = TextReply(status: int, text: string)

  /** The login server: it records every form posted to it. */
  class CasServer {
    const reply: nat -> TextReply
    var posts: seq<(string, string)>

    constructor (reply: nat -> TextReply)
      ensures this.reply == reply && posts == []
    {
      this.reply := reply;
      posts := [];
    }

    method Post(url: string, form: string) returns (resp: TextReply)
      modifies this
      ensures posts == old(posts) + [(url, form)]
      ensures resp == reply(|old(posts)|)
    {
      resp := reply(|posts|);
      posts := posts + [(url, form)];
    }
  }

  /** The form body of the login request. */
  function Form(username: string, password: string): string {
    "username=" + username + "&password=" + password
  }

  /** The shape of every ticket the manager hands out: it starts with "TGT-" and does
      not end in whitespace. */
  predicate IsTicket(t: string) {
    "TGT-" <= t && !IsSpace(t[|t| - 1])
  }

  /** `_request_new_token` after the HTTP exchange: a 4xx or 5xx status raises; the
      text is stripped of surrounding whitespace and must start with "TGT-", or
      ValueError is raised. */
  function TicketFrom(reply: TextReply): (r: Result<string>)
    ensures r.Ok? <==> !RaisesForStatus(reply.status) && "TGT-" <= Strip(reply.text)
    ensures r.Ok? ==> r.value == Strip(reply.text) && IsTicket(r.value)
    ensures RaisesForStatus(reply.status) ==> r == Err(HttpError(reply.status))
    ensures !RaisesForStatus(reply.status) && r.Err? ==> r.error == ValueError
  {
    var _ :- RaiseForStatus(reply.status);
    var token := Strip(reply.text);
    if "TGT-" <= token then Ok(token) else Err(ValueError)
  }

  /** The manager's two fields. */
  datatype TgtState = TgtState(token: Option<string>, expiresAt: real)

  /** A fresh manager: no ticket, expiry at the epoch. */
  const Initial: TgtState := TgtState(None, 0.0)

  /** What the manager's fields always satisfy: a held ticket has the ticket shape,
      and without a ticket the expiry is not in the future of any clock reading. */
  predicate Consistent(s: TgtState) {
    && (s.token.Some? ==> IsTicket(s.token.value))
    && (s.token.None? ==> s.expiresAt <= 0.0)
  }

  /** The result of one `current` call: what it returns or raises, the fields
      afterwards, and whether it asked the login server for a new ticket. */
  datatype Outcome = Outcome(result: Result<string>, state: TgtState, fetched: bool)

  /** One `current(force_refresh)` call from state `s`. `now` is the clock reading of
      the expiry test (not taken when the refresh is forced), `reply` the login
      server's answer and `after` the clock reading once the new ticket is in. A
      refresh happens when forced or when `now` has reached the expiry; a successful
      one stores the ticket and moves the expiry to `after` plus two hours less one
      minute; a failed one raises and leaves the fields as they were. */
  function CurrentStep(s: TgtState, force: bool, now: Seconds, reply: TextReply, after: Seconds): (o: Outcome)
    requires Consistent(s)
    ensures Consistent(o.state)
    ensures o.fetched <==> force || now >= s.expiresAt
    ensures o.result.Ok? ==> o.state.token == Some(o.result.value)
    ensures o.result.Err? ==> o.fetched && o.state == s
  {
    if force || now >= s.expiresAt then
      match TicketFrom(reply)
      case Ok(t) => Outcome(Ok(t), TgtState(Some(t), after + TtlSeconds - EarlyRefresh), true)
      case Err(e) => Outcome(Err(e), s, true)
    else
      Outcome(Ok(s.token.value), s, false)
  }

  /** The first call on a fresh manager always asks for a ticket. */
  lemma FirstCallFetches(force: bool, now: Seconds, reply: TextReply, after: Seconds)
    ensures CurrentStep(Initial, force, now, reply, after).fetched
  {
  }

  /** Before the expiry, an unforced call returns the held ticket and changes
      nothing; at the expiry itself it already refreshes. */
  lemma CachedUntilExpiry(s: TgtState, now: Seconds, reply: TextReply, after: Seconds)
    requires Consistent(s)
    ensures now < s.expiresAt ==>
              CurrentStep(s, false, now, reply, after) == Outcome(Ok(s.token.value), s, false)
    ensures now == s.expiresAt ==> CurrentStep(s, false, now, reply, after).fetched
  {
  }

  /** A forced call always asks for a ticket, whatever the expiry. */
  lemma ForceFetches(s: TgtState, now: Seconds, reply: TextReply, after: Seconds)
    requires Consistent(s)
    ensures CurrentStep(s, true, now, reply, after).fetched
    ensures CurrentStep(s, true, now, reply, after).result == TicketFrom(reply)
  {
  }

  /** After a successful refresh the stored ticket is the returned one and the
      expiry is the clock reading after the fetch plus 7140 seconds. */
  lemma RefreshSetsExpiry(s: TgtState, force: bool, now: Seconds, reply: TextReply, after: Seconds)
    requires Consistent(s)
    requires CurrentStep(s, force, now, reply, after).fetched
    requires CurrentStep(s, force, now, reply, after).result.Ok?
    ensures CurrentStep(s, force, now, reply, after).state.expiresAt == after + 7140.0
    ensures CurrentStep(s, force, now, reply, after).result == TicketFrom(reply)
  {
  }

  /** Two calls in a row: once a refresh has succeeded with the clock at `after`, an
      unforced call at any time before `after + 7140` seconds is answered from the
      cache with the same ticket. */
  lemma {:induction false} FreshTicketReused(s: TgtState, force: bool, now: Seconds, reply: TextReply,
                                             after: Seconds, now2: Seconds, reply2: TextReply, after2: Seconds)
    requires Consistent(s)
    requires CurrentStep(s, force, now, reply, after).fetched
    requires CurrentStep(s, force, now, reply, after).result.Ok?
    requires now2 < after + 7140.0
    ensures var o1 := CurrentStep(s, force, now, reply, after);
            var o2 := CurrentStep(o1.state, false, now2, reply2, after2);
            !o2.fetched && o2.result == o1.result && o2.state == o1.state
  {
    var o1 := CurrentStep(s, force, now, reply, after);
    RefreshSetsExpiry(s, force, now, reply, after);
    assert now2 < o1.state.expiresAt;
    CachedUntilExpiry(o1.state, now2, reply2, after2);
  }

  /** `TGTManager`. */
  class TgtManager {
    const username: string
    const password: string
    const clock: Clock
    const cas: CasServer
    var token: Option<string>
    var expiresAt: real
    /** How many forced refreshes have been asked of this manager. */
    ghost var forced: nat

    function State(): TgtState
      reads this
    {
      TgtState(token, expiresAt)
    }

    predicate Valid()
      reads this
    {
      Consistent(State())
    }

    constructor (username: string, password: string, clock: Clock, cas: CasServer)
      ensures this.username == username && this.password == password
      ensures this.clock == clock && this.cas == cas
      ensures State() == Initial && forced == 0
      ensures Valid()
    {
      this.username := username;
      this.password := password;
      this.clock := clock;
      this.cas := cas;
      token := None;
      expiresAt := 0.0;
      forced := 0;
    }

    /** `_request_new_token`: one form post to the login server. */
    method RequestNewToken() returns (r: Result<string>)
      modifies cas
      ensures cas.posts == old(cas.posts) + [(AuthUrl, Form(username, password))]
      ensures r == TicketFrom(cas.reply(|old(cas.posts)|))
    {
      var resp := cas.Post(AuthUrl, Form(username, password));
      r := TicketFrom(resp);
    }

    /** `current(force_refresh)`, one step of CurrentStep: the clock is read for the
      expiry test only when the refresh is not forced, and once more after a
      successful fetch; the login server is asked only when the step fetches. */
    method Current(force: bool) returns (r: Result<string>)
      requires Valid()
      modifies this, clock, cas
      ensures Valid()
      ensures var checked := if force then 0 else 1;
              var o := CurrentStep(old(State()), force, clock.at(old(clock.readings)), cas.reply(|old(cas.posts)|),
                                   clock.at(old(clock.readings) + checked));
              && r == o.result
              && State() == o.state
              && cas.posts == old(cas.posts) + (if o.fetched then [(AuthUrl, Form(username, password))] else [])
              && clock.readings == old(clock.readings) + checked + (if o.fetched && o.result.Ok? then 1 else 0)
      ensures forced == old(forced) + (if force then 1 else 0)
    {
      if force {
        forced := forced + 1;
      }
      var refresh := force;
      if !force {
        var now := clock.Time();
        refresh := now >= expiresAt;
      }
      if refresh {
        var t := RequestNewToken();
        if t.Err? {
          return Err(t.error);
        }
        var after := clock.Time();
        token := Some(t.value);
        expiresAt := after + TtlSeconds - EarlyRefresh;
      }
      r := Ok(token.value);
    }
  }
}
