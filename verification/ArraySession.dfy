/**
 The shim's authenticated session to the array: lazy login, one retry on 401, against an array that may
 expire sessions at any moment and a network that may lose a request or its answer.
 */
module ArraySession {
  import opened Options

  datatype Answer = Answer(status: int, body: string)

  const UNAUTHORIZED := Answer(401, "")

  /** How one `do` ended: answered, no answer (request not carried out, or carried out), or rejected twice. */
  datatype Link = Served | LostBefore | LostAfter | Refused

  /** What the caller is left with, when serving the request in state `s` gives `served`. */
  function Outcome<S>(s: S, served: (S, Answer), link: Link): (S, Option<Answer>) {
    match link
    case Served => (served.0, Some(served.1))
    case LostBefore => (s, None)
    case LostAfter => (served.0, None)
    case Refused => (s, Some(UNAUTHORIZED))
  }

  // ---- what is on the wire, and what the network makes of it ----

  /** The messages to the array, in order: logins, and requests sent under a token. */
  datatype Event<Q> = LoggedIn(token: nat) | LoginFailed | Sent(token: nat, req: Q, link: Link)

  /**
   What becomes of one message: whether it arrives, whether its answer does, whether the array would admit a login,
   and which sessions expire just before.
   */
  datatype Weather = Weather(arrives: bool, answered: bool, admits: bool, expired: set<nat>)

  /** Nothing of it is the shim's to choose: the weather of every message, px's sessions, and the first new token. */
  datatype Net = Net(weather: nat -> Weather, given: set<nat>, first: nat)

  function Logins<Q>(es: seq<Event<Q>>): nat {
    if es == [] then 0 else Logins(es[..|es| - 1]) + if es[|es| - 1].LoggedIn? then 1 else 0
  }

  /** The sessions alive after the messages `es`. */
  function LiveAfter<Q>(net: Net, es: seq<Event<Q>>): set<nat> {
    if es == [] then net.given
    else
      var n := |es| - 1;
      LiveAfter(net, es[..n]) - net.weather(n).expired + if es[n].LoggedIn? then {es[n].token} else {}
  }

  function LinkOf(f: Weather, alive: bool): Link {
    if !f.arrives then LostBefore
    else if alive then (if f.answered then Served else LostAfter)
    else if f.answered then Refused else LostBefore
  }

  predicate Enters(f: Weather) { f.arrives && f.answered && f.admits }

  /** The message that comes after `es` went as the network and the array's sessions say. */
  ghost predicate Fits<Q>(net: Net, es: seq<Event<Q>>, e: Event<Q>) {
    var f := net.weather(|es|);
    match e
    case LoggedIn(token) => Enters(f) && token == net.first + Logins(es)
    case LoginFailed => !Enters(f)
    case Sent(token, _, link) => link == LinkOf(f, token in LiveAfter(net, es) - f.expired)
  }

  ghost predicate Faithful<Q>(net: Net, es: seq<Event<Q>>) {
    es != [] ==> var n := |es| - 1; Faithful(net, es[..n]) && Fits(net, es[..n], es[n])
  }

  /** The array's state after the messages `es`: what it has carried out. */
  function StateAfter<S, Q>(serve: (S, Q) -> (S, Answer), s: S, es: seq<Event<Q>>): S {
    if es == [] then s
    else
      var n := |es| - 1;
      var before := StateAfter(serve, s, es[..n]);
      if es[n].Sent? && (es[n].link.Served? || es[n].link.LostAfter?) then serve(before, es[n].req).0 else before
  }

  lemma OneMoreMessage<S, Q>(net: Net, serve: (S, Q) -> (S, Answer), s: S, es: seq<Event<Q>>, e: Event<Q>)
    ensures Faithful(net, es + [e]) <==> Faithful(net, es) && Fits(net, es, e)
    ensures Logins(es + [e]) == Logins(es) + if e.LoggedIn? then 1 else 0
    ensures LiveAfter(net, es + [e]) ==
              LiveAfter(net, es) - net.weather(|es|).expired + if e.LoggedIn? then {e.token} else {}
    ensures var before := StateAfter(serve, s, es);
            StateAfter(serve, s, es + [e]) ==
              if e.Sent? && (e.link.Served? || e.link.LostAfter?) then serve(before, e.req).0 else before
  {
    assert (es + [e])[..|es|] == es;
  }

  /** An array with state S and requests Q; only a dead session makes it answer 401. */
  class Server<S, Q(!new)> {
    const serve: (S, Q) -> (S, Answer)
    const net: Net
    ghost const start: S
    var state: S
    var live: set<nat>  // tokens of the sessions that have not expired
    var next: nat       // the next token to hand out
    var sent: nat       // messages so far
    ghost var trace: seq<Event<Q>>

    /** All that has happened is what the messages did, and they went as the network says. */
    ghost predicate Valid() reads this {
      && sent == |trace| && Faithful(net, trace)
      && live == LiveAfter(net, trace) && next == net.first + Logins(trace)
      && net.first > 0 && state == StateAfter(serve, start, trace)
    }

    constructor (serve: (S, Q) -> (S, Answer), s: S, net: Net)
      requires net.first > 0
      ensures Valid() && this.serve == serve && this.net == net && start == s && state == s && trace == []
    {
      this.serve, this.net, start := serve, net, s;
      state, live, next, sent, trace := s, net.given, net.first, 0, [];
    }

    /** A token, or 0 when the login does not succeed. */
    method Login() returns (token: nat)
      requires Valid()
      modifies this`live, this`next, this`sent, this`trace
      ensures Valid() && next >= old(next)
      ensures token == 0 ==> trace == old(trace) + [LoginFailed]
      ensures token != 0 ==> trace == old(trace) + [LoggedIn(token)] && token == old(next)
    {
      var f := net.weather(sent);
      ghost var e := if Enters(f) then LoggedIn(next) else LoginFailed;
      OneMoreMessage(net, serve, start, trace, e);
      live, sent, trace := live - f.expired, sent + 1, trace + [e];
      if !Enters(f) { return 0; }
      token := next;
      live, next := live + {next}, next + 1;
    }

    /** One request on the wire. */
    method Receive(token: nat, req: Q) returns (a: Option<Answer>, ghost link: Link)
      requires Valid()
      modifies this`state, this`live, this`sent, this`trace
      ensures Valid()
      ensures (state, a) == Outcome(old(state), serve(old(state), req), link)
      ensures trace == old(trace) + [Sent(token, req, link)]
    {
      var f := net.weather(sent);
      link := LinkOf(f, token in live - f.expired);
      OneMoreMessage(net, serve, start, trace, Sent(token, req, link));
      live, sent, trace := live - f.expired, sent + 1, trace + [Sent(token, req, link)];
      if !f.arrives { return None, link; }
      if token !in live {
        return if f.answered then Some(UNAUTHORIZED) else None, link;
      }
      var (s, ans) := serve(state, req);
      state := s;
      return if f.answered then Some(ans) else None, link;
    }
  }

  // ---- one call of the session ----

  ghost predicate IsSend<Q>(e: Event<Q>, token: nat, req: Q) { e.Sent? && e.token == token && e.req == req }

  /** A send; after a rejection a login, and after that the second send, under the new token. */
  ghost predicate Attempts<Q>(token: nat, req: Q, es: seq<Event<Q>>) {
    && |es| >= 1 && IsSend(es[0], token, req)
    && if !es[0].link.Refused? then |es| == 1
       else || (|es| == 2 && es[1].LoginFailed?)
            || (|es| == 3 && es[1].LoggedIn? && IsSend(es[2], es[1].token, req))
  }

  /** What one call puts on the wire when the session holds the token `auth`, or 0 for none yet. */
  ghost predicate CallTrace<Q>(auth: nat, req: Q, es: seq<Event<Q>>) {
    if auth != 0 then Attempts(auth, req, es)
    else |es| >= 1 && if es[0].LoggedIn? then Attempts(es[0].token, req, es[1..]) else es == [LoginFailed]
  }

  /** How a call ended is what became of its last message. */
  function EndOf<Q>(es: seq<Event<Q>>): Link {
    if es == [] || !es[|es| - 1].Sent? then LostBefore else es[|es| - 1].link
  }

  /** The token the session holds after the messages of a call. */
  function AuthAfter<Q>(auth: nat, es: seq<Event<Q>>): nat {
    if es == [] then auth else if es[|es| - 1].LoggedIn? then es[|es| - 1].token else AuthAfter(auth, es[..|es| - 1])
  }

  lemma {:induction false} AuthBehind<Q>(auth: nat, before: seq<Event<Q>>, es: seq<Event<Q>>)
    ensures AuthAfter(auth, before + es) == AuthAfter(AuthAfter(auth, before), es)
    decreases |es|
  {
    if es == [] {
      assert before + es == before;
    } else {
      assert (before + es)[..|before + es| - 1] == before + es[..|es| - 1];
      AuthBehind(auth, before, es[..|es| - 1]);
    }
  }

  lemma AttemptAuth<Q>(auth: nat, token: nat, req: Q, es: seq<Event<Q>>)
    requires Attempts(token, req, es)
    ensures AuthAfter(auth, es) == if |es| == 3 then es[1].token else auth
  {
    AuthBehind(auth, [es[0]], es[1..]);
    assert es == [es[0]] + es[1..] && [es[0]][..0] == [];
    if |es| == 3 {
      assert es[1..][..1] == [es[1]];
    } else if |es| == 2 {
      assert es[1..][..0] == [];
    }
  }

  /** A first login, if one was needed, and the attempts under the token of the moment make a whole call. */
  lemma WholeCall<Q>(auth: nat, token: nat, req: Q, first: seq<Event<Q>>, es: seq<Event<Q>>)
    requires if auth != 0 then first == [] && token == auth else first == [LoggedIn(token)]
    requires Attempts(token, req, es)
    ensures CallTrace(auth, req, first + es) && EndOf(first + es) == EndOf(es)
    ensures AuthAfter(auth, first + es) == AuthAfter(token, es)
  {
    if auth != 0 {
      assert first + es == es;
    } else {
      assert (first + es)[1..] == es;
      AuthBehind(auth, first, es);
    }
  }

  function Sends<Q>(es: seq<Event<Q>>): nat {
    if es == [] then 0 else (if es[0].Sent? then 1 else 0) + Sends(es[1..])
  }

  function Executions<Q>(es: seq<Event<Q>>): nat {
    if es == [] then 0
    else (if es[0].Sent? && (es[0].link.Served? || es[0].link.LostAfter?) then 1 else 0) + Executions(es[1..])
  }

  /** The trace ends with a rejection, a fresh login and a rejection of that very session. */
  ghost predicate RejectedAfterFreshLogin<Q>(es: seq<Event<Q>>) {
    var n := |es|;
    && n >= 3 && es[n - 1].Sent? && es[n - 1].link.Refused? && es[n - 2].LoggedIn?
    && es[n - 3].Sent? && es[n - 3].link.Refused? && es[n - 1].token == es[n - 2].token
  }

  lemma CountCons<Q>(e: Event<Q>, es: seq<Event<Q>>)
    ensures Sends([e] + es) == (if e.Sent? then 1 else 0) + Sends(es)
    ensures Executions([e] + es)
         == (if e.Sent? && (e.link.Served? || e.link.LostAfter?) then 1 else 0) + Executions(es)
  {
    assert ([e] + es)[1..] == es;
  }

  lemma AttemptBounds<Q>(token: nat, req: Q, es: seq<Event<Q>>)
    requires Attempts(token, req, es)
    ensures Sends(es) <= 2
    ensures Executions(es) == if EndOf(es).Served? || EndOf(es).LostAfter? then 1 else 0
  {
    assert es == [es[0]] + es[1..];
    CountCons(es[0], es[1..]);
    if |es| >= 2 {
      assert es[1..] == [es[1]] + es[2..];
      CountCons(es[1], es[2..]);
    }
    if |es| >= 3 {
      assert es[2..] == [es[2]] + [];
      CountCons(es[2], []);
    }
  }

  /**
   What a call's messages say of it: at most two sends and one execution; not carried out exactly when the last
   message was lost or was a refused login, refused exactly when a session was rejected again right after it was
   opened; and a rejection followed by a login is always followed by the second send.
   */
  lemma CallBounds<Q>(auth: nat, req: Q, es: seq<Event<Q>>)
    requires CallTrace(auth, req, es)
    ensures 1 <= |es| && Sends(es) <= 2
    ensures Executions(es) == if EndOf(es).Served? || EndOf(es).LostAfter? then 1 else 0
    ensures EndOf(es).LostBefore? <==>
              es[|es| - 1].LoginFailed? || (es[|es| - 1].Sent? && es[|es| - 1].link.LostBefore?)
    ensures EndOf(es).Refused? <==> RejectedAfterFreshLogin(es)
    ensures forall i :: 0 <= i < |es| && es[i].LoggedIn? ==> i + 1 < |es| && IsSend(es[i + 1], es[i].token, req)
  {
    var rest := if auth == 0 && es[0].LoggedIn? then es[1..] else es;
    assert es == [es[0]] + es[1..];
    CountCons(es[0], es[1..]);
    if auth != 0 || es[0].LoggedIn? {
      AttemptBounds(if auth != 0 then auth else es[0].token, req, rest);
    }
  }

  lemma {:induction false} FaithfulAt<Q>(net: Net, es: seq<Event<Q>>, i: nat)
    requires Faithful(net, es) && i < |es|
    ensures Faithful(net, es[..i]) && Fits(net, es[..i], es[i])
  {
    if i < |es| - 1 {
      FaithfulAt(net, es[..|es| - 1], i);
      assert es[..|es| - 1][..i] == es[..i];
    }
  }

  /** The message arrives, its answer does, a login would be admitted, and no session expires meanwhile. */
  predicate Smooth(f: Weather) { Enters(f) && f.expired == {} }

  lemma SmoothSend<Q>(net: Net, es: seq<Event<Q>>, i: nat)
    requires Faithful(net, es) && i < |es| && es[i].Sent? && Smooth(net.weather(i))
    ensures es[i].link.Served? || es[i].link.Refused?
    ensures i > 0 && es[i - 1].LoggedIn? && es[i - 1].token == es[i].token ==> es[i].link.Served?
  {
    FaithfulAt(net, es, i);
    if i > 0 { assert es[..i][..i - 1] == es[..i - 1]; }
  }

  /**
   Whatever token the session holds, dead, alive or none: when the next four messages go smoothly, the call is
   served.
   */
  lemma SmoothServed<Q>(net: Net, before: seq<Event<Q>>, auth: nat, req: Q, es: seq<Event<Q>>)
    requires Faithful(net, before + es) && CallTrace(auth, req, es)
    requires forall i :: |before| <= i < |before| + 4 ==> Smooth(net.weather(i))
    ensures EndOf(es).Served?
  {
    var all, n := before + es, |before|;
    forall i | n <= i < |all| ensures !all[i].LoginFailed? { FaithfulAt(net, all, i); }
    forall i | n <= i < |all| && all[i].Sent?
      ensures all[i].link.Served? || all[i].link.Refused?
      ensures i > n && all[i - 1].LoggedIn? && all[i - 1].token == all[i].token ==> all[i].link.Served?
    {
      SmoothSend(net, all, i);
    }
    assert forall j :: 0 <= j < |es| ==> es[j] == all[n + j];
  }

  class Session<S, Q(!new)> {
    const server: Server<S, Q>
    var auth: nat // the session token; 0 when there is none yet

    constructor (server: Server<S, Q>)
      ensures this.server == server && auth == 0
    {
      this.server := server;
      auth := 0;
    }

    method Login() returns (ok: bool)
      requires server.Valid()
      modifies this`auth, server`live, server`next, server`sent, server`trace
      ensures server.Valid()
      ensures !ok ==> server.trace == old(server.trace) + [LoginFailed] && auth == old(auth)
      ensures ok ==> auth == old(server.next) && server.trace == old(server.trace) + [LoggedIn(auth)]
    {
      var token := server.Login();
      if token == 0 { return false; }
      auth := token;
      ok := true;
    }

    /** The request under the token of the moment, and once more under a new one if that is rejected. */
    method Try(req: Q) returns (r: Option<Answer>, ghost link: Link, ghost added: seq<Event<Q>>)
      requires server.Valid() && server.serve(server.state, req).1.status != 401
      modifies this`auth, server
      ensures server.Valid()
      ensures server.trace == old(server.trace) + added
      ensures Attempts(old(auth), req, added) && link == EndOf(added) && auth == AuthAfter(old(auth), added)
      ensures (server.state, r) == Outcome(old(server.state), server.serve(old(server.state), req), link)
      ensures r.Some? && r.value.status == 401 <==> link.Refused?
    {
      ghost var token := auth;
      r, link := server.Receive(auth, req);
      added := [Sent(auth, req, link)];
      if r.Some? && r.value.status == 401 {
        var ok := Login();
        if ok {
          added := added + [LoggedIn(auth)];
          r, link := server.Receive(auth, req);
          added := added + [Sent(auth, req, link)];
        } else {
          r, link, added := None, LostBefore, added + [LoginFailed];
        }
      }
      AttemptAuth(token, token, req, added);
    }

    /**
     `added` are the messages of this call, as the network let them go: they are a whole call's, the array moved and
     the caller was answered as the last of them says.
     */
    method Do(req: Q) returns (r: Option<Answer>, ghost link: Link, ghost added: seq<Event<Q>>)
      requires server.Valid() && server.serve(server.state, req).1.status != 401
      modifies this`auth, server
      ensures server.Valid()
      ensures server.trace == old(server.trace) + added
      ensures CallTrace(old(auth), req, added) && link == EndOf(added) && auth == AuthAfter(old(auth), added)
      ensures (server.state, r) == Outcome(old(server.state), server.serve(old(server.state), req), link)
      ensures Sends(added) <= 2
      ensures Executions(added) == if link.Served? || link.LostAfter? then 1 else 0
      ensures r.Some? && r.value.status == 401 <==> link.Refused?
      ensures link.Refused? ==> RejectedAfterFreshLogin(added)
    {
      added := [];
      if auth == 0 {
        var ok := Login();
        if !ok {
          CallBounds(old(auth), req, [LoginFailed]);
          return None, LostBefore, [LoginFailed];
        }
        added := [LoggedIn(auth)];
      }
      ghost var token, first := auth, added;
      r, link, added := Try(req);
      WholeCall(old(auth), token, req, first, added);
      added := first + added;
      CallBounds(old(auth), req, added);
    }
  }
}
