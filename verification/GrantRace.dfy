/**
 Any number of POST connections at once. The cache check, the grant call, the cache store and the
 connect call of each are separate steps, taken in any order.
 */
module GrantRace {
  import opened GoStrings
  import opened Resolve
  import opened ArraySession
  import opened FlashArray
  import opened Protocol
  import opened Messages
  import opened Refinement

  datatype Pc = Check | Ask | Store | Connect | Finished

  /** One request: its array host, px's realm, the volume, and how far it is. */
  datatype Attach = Attach(host: string, realm: string, volume: string, pc: Pc)

  datatype LogEntry = GrantCall(host: string, realm: string) | ConnectCall(post: Attach, refused: bool)

  datatype Sys = Sys(posts: map<nat, Attach>, granted: set<string>, fa: ArrayState, log: seq<LogEntry>)

  datatype Action =
    | Arrive(id: nat, post: Attach)
    | Step(id: nat, link: Link) // the link matters to the two calls only

  function Move(y: Sys, id: nat, pc: Pc): Sys
    requires id in y.posts
  {
    y.(posts := y.posts[id := y.posts[id].(pc := pc)])
  }

  /** One step of the system; a step of an unknown or finished request changes nothing. */
  function Next(y: Sys, a: Action): Sys {
    match a
    case Arrive(id, post) => if id in y.posts then y else y.(posts := y.posts[id := post.(pc := Check)])
    case Step(id, link) =>
      if id !in y.posts then y
      else
        var p := y.posts[id];
        match p.pc
        case Check => Move(y, id, if GrantKey(p.host, p.realm) in y.granted then Connect else Ask)
        case Ask =>
          var (s, ans) := Outcome(y.fa, Serve(y.fa, Grant(p.host, p.realm)), link);
          var z := Move(y, id, if ans.Some? && GrantAccepted(ans.value) then Store else Finished);
          z.(fa := s, log := y.log + [GrantCall(p.host, p.realm)])
        case Store => Move(y, id, Connect).(granted := y.granted + {GrantKey(p.host, p.realm)})
        case Connect =>
          var (s, ans) := Outcome(y.fa, Serve(y.fa, Connections(Verb.Post, p.host, p.volume)), link);
          Move(y, id, Finished).(fa := s, log := y.log + [ConnectCall(p, Refuses(y.fa, p.host, p.volume))])
        case Finished => y
  }

  function Run(y: Sys, acts: seq<Action>): Sys
    decreases |acts|
  {
    if acts == [] then y else Run(Next(y, acts[0]), acts[1..])
  }

  /** px addresses configured hosts that exist on the array, in a realm that exists, for a volume of that realm. */
  predicate PostOk(s: ArrayState, p: Attach) {
    && p.host in s.hosts && p.realm in s.realms && Free(p.host, NUL) && p.realm != ""
    && (IsRealmHost(p.volume) ==> RealmOf(p.volume) == p.realm)
  }

  predicate ActionOk(s: ArrayState, a: Action) { a.Arrive? ==> PostOk(s, a.post) }

  /** No call creates or removes hosts or realms. */
  predicate SameWorld(s: ArrayState, t: ArrayState) { s.hosts == t.hosts && s.realms == t.realms }

  ghost predicate Inv(y: Sys) {
    && GrantsHeld(y.granted, y.fa.grants)
    && (forall id :: id in y.posts ==> PostOk(y.fa, y.posts[id]))
    && (forall id :: id in y.posts && (y.posts[id].pc == Store || y.posts[id].pc == Connect) ==>
          (y.posts[id].host, y.posts[id].realm) in y.fa.grants)
    && (forall i :: 0 <= i < |y.log| && y.log[i].ConnectCall? ==> !y.log[i].refused)
  }

  lemma ServeKeeps(s: ArrayState, r: Request)
    ensures s.grants <= Serve(s, r).0.grants && SameWorld(s, Serve(s, r).0)
    ensures r.Grant? && r.host in s.hosts && r.realm in s.realms && Serve(s, r).1.status in {200, 400} ==>
              (r.host, r.realm) in Serve(s, r).0.grants
  {
  }

  predicate Refusal(e: LogEntry) { e.ConnectCall? && e.refused }

  /** A request moved on, the array only gained grants, and what was added to the log is no refusal. */
  lemma MoveKeeps(y: Sys, id: nat, pc: Pc, s: ArrayState, granted: set<string>, log: seq<LogEntry>)
    requires Inv(y) && id in y.posts
    requires y.fa.grants <= s.grants && SameWorld(y.fa, s) && GrantsHeld(granted, s.grants)
    requires pc == Store || pc == Connect ==> (y.posts[id].host, y.posts[id].realm) in s.grants
    requires log == y.log || (|log| > 0 && log == y.log + [log[|log| - 1]] && !Refusal(log[|log| - 1]))
    ensures Inv(Sys(y.posts[id := y.posts[id].(pc := pc)], granted, s, log))
  {
  }

  lemma CallKeeps(y: Sys, id: nat, link: Link)
    requires Inv(y) && id in y.posts && (y.posts[id].pc == Ask || y.posts[id].pc == Connect)
    ensures Inv(Next(y, Step(id, link))) && SameWorld(y.fa, Next(y, Step(id, link)).fa)
  {
    var p, z := y.posts[id], Next(y, Step(id, link));
    ServeKeeps(y.fa, Grant(p.host, p.realm));
    ServeKeeps(y.fa, Connections(Verb.Post, p.host, p.volume));
    assert UNAUTHORIZED.status == 401;
    MoveKeeps(y, id, z.posts[id].pc, z.fa, z.granted, z.log);
  }

  lemma StepKeeps(y: Sys, a: Action)
    requires Inv(y) && ActionOk(y.fa, a)
    ensures Inv(Next(y, a)) && SameWorld(y.fa, Next(y, a).fa)
  {
    if a.Step? && a.id in y.posts {
      var p, z := y.posts[a.id], Next(y, a);
      match p.pc
      case Ask => CallKeeps(y, a.id, a.link);
      case Connect => CallKeeps(y, a.id, a.link);
      case Finished =>
      case Check => MoveKeeps(y, a.id, z.posts[a.id].pc, y.fa, y.granted, y.log);
      case Store =>
        forall h, r | Free(h, NUL) && GrantKey(h, r) in z.granted ensures (h, r) in y.fa.grants {
          if GrantKey(h, r) !in y.granted { KeyInjective(h, r, p.host, p.realm); }
        }
        MoveKeeps(y, a.id, Connect, y.fa, z.granted, y.log);
    }
  }

  /**
   In every interleaving: what the cache says is granted is granted, no connect is sent before its grant
   holds, and none is refused for lack of access.
   */
  lemma {:induction false} NeverRefused(y: Sys, acts: seq<Action>)
    requires Inv(y) && forall i :: 0 <= i < |acts| ==> ActionOk(y.fa, acts[i])
    ensures Inv(Run(y, acts))
    decreases |acts|
  {
    if acts != [] {
      StepKeeps(y, acts[0]);
      NeverRefused(Next(y, acts[0]), acts[1..]);
    }
  }

  function GrantCalls(log: seq<LogEntry>, host: string, realm: string): nat {
    if log == [] then 0
    else GrantCalls(log[..|log| - 1], host, realm) + if log[|log| - 1] == GrantCall(host, realm) then 1 else 0
  }

  /** The requests that found the cache empty and have not called yet. */
  function Asking(y: Sys, host: string, realm: string): set<nat> {
    set id | id in y.posts && y.posts[id].host == host && y.posts[id].realm == realm && y.posts[id].pc == Ask
  }

  /** One step logs at most one call, and a grant call only for a request that was asking. */
  lemma StepLogs(y: Sys, a: Action, host: string, realm: string)
    ensures var z := Next(y, a);
            GrantCalls(z.log, host, realm) == GrantCalls(y.log, host, realm)
              + if a.Step? && a.id in Asking(y, host, realm) && z.log != y.log then 1 else 0
  {
    var z := Next(y, a);
    assert z.log != y.log ==> |z.log| > 0 && z.log[..|z.log| - 1] == y.log;
  }

  /** The request looks up the pair and does not find it. */
  predicate Misses(y: Sys, a: Action, host: string, realm: string) {
    && a.Step? && a.id in y.posts && y.posts[a.id].pc == Check
    && y.posts[a.id].host == host && y.posts[a.id].realm == realm && GrantKey(host, realm) !in y.granted
  }

  function MissCount(y: Sys, acts: seq<Action>, host: string, realm: string): nat
    decreases |acts|
  {
    if acts == [] then 0
    else (if Misses(y, acts[0], host, realm) then 1 else 0) + MissCount(Next(y, acts[0]), acts[1..], host, realm)
  }

  lemma AskingNext(y: Sys, a: Action, host: string, realm: string)
    ensures Asking(Next(y, a), host, realm)
         == if Misses(y, a, host, realm) then Asking(y, host, realm) + {a.id}
            else if a.Step? then Asking(y, host, realm) - {a.id} else Asking(y, host, realm)
  {
  }

  lemma BalanceNext(y: Sys, a: Action, host: string, realm: string)
    ensures var z := Next(y, a);
            GrantCalls(z.log, host, realm) + |Asking(z, host, realm)|
              == GrantCalls(y.log, host, realm) + |Asking(y, host, realm)| + if Misses(y, a, host, realm) then 1 else 0
  {
    var asking := Asking(y, host, realm);
    StepLogs(y, a, host, realm);
    AskingNext(y, a, host, realm);
    if a.Step? {
      AskingLogs(y, a.id, a.link, host, realm);
      if a.id !in asking { assert asking - {a.id} == asking; }
    }
  }

  /** An asking request calls with its next step. */
  lemma AskingLogs(y: Sys, id: nat, link: Link, host: string, realm: string)
    ensures id in Asking(y, host, realm) ==> Next(y, Step(id, link)).log == y.log + [GrantCall(host, realm)]
  {
  }

  /**
   Over every run: grant calls made and still to be made are exactly as many as lookups that found the pair
   missing. Nothing else makes a call, and every such lookup does.
   */
  lemma {:induction false} CallsAreMisses(y: Sys, acts: seq<Action>, host: string, realm: string)
    ensures var z := Run(y, acts);
            GrantCalls(z.log, host, realm) + |Asking(z, host, realm)|
              == GrantCalls(y.log, host, realm) + |Asking(y, host, realm)| + MissCount(y, acts, host, realm)
    decreases |acts|
  {
    if acts != [] {
      BalanceNext(y, acts[0], host, realm);
      CallsAreMisses(Next(y, acts[0]), acts[1..], host, realm);
    }
  }

  /** From the start, once no call is outstanding: at most one call if and only if at most one lookup failed. */
  lemma OneCallExactly(s: ArrayState, acts: seq<Action>, host: string, realm: string)
    ensures var y := Sys(map[], {}, s, []);
            var z := Run(y, acts);
            && GrantCalls(z.log, host, realm) <= MissCount(y, acts, host, realm)
            && (Asking(z, host, realm) == {} ==>
                  (GrantCalls(z.log, host, realm) <= 1 <==> MissCount(y, acts, host, realm) <= 1))
  {
    var y := Sys(map[], {}, s, []);
    CallsAreMisses(y, acts, host, realm);
    assert Asking(y, host, realm) == {};
  }

  lemma {:induction false} CachedStays(y: Sys, acts: seq<Action>, host: string, realm: string)
    requires GrantKey(host, realm) in y.granted
    ensures GrantKey(host, realm) in Run(y, acts).granted && MissCount(y, acts, host, realm) == 0
    decreases |acts|
  {
    if acts != [] { CachedStays(Next(y, acts[0]), acts[1..], host, realm); }
  }

  /** Once a pair is cached, exactly the requests already past their lookup still call for it, over any further run. */
  lemma CachedGrantSettles(y: Sys, acts: seq<Action>, host: string, realm: string)
    requires GrantKey(host, realm) in y.granted
    ensures var z := Run(y, acts);
            GrantCalls(z.log, host, realm) + |Asking(z, host, realm)|
              == GrantCalls(y.log, host, realm) + |Asking(y, host, realm)|
  {
    CachedStays(y, acts, host, realm);
    CallsAreMisses(y, acts, host, realm);
  }

  lemma {:induction false} CallsGrow(y: Sys, acts: seq<Action>, host: string, realm: string)
    ensures GrantCalls(y.log, host, realm) <= GrantCalls(Run(y, acts).log, host, realm)
    decreases |acts|
  {
    if acts != [] {
      StepLogs(y, acts[0], host, realm);
      CallsGrow(Next(y, acts[0]), acts[1..], host, realm);
    }
  }

  /** Once a pair is cached, no interleaving calls for it again if and only if no request is past its lookup. */
  lemma SettledExactly(y: Sys, host: string, realm: string)
    requires GrantKey(host, realm) in y.granted
    ensures (forall acts :: GrantCalls(Run(y, acts).log, host, realm) == GrantCalls(y.log, host, realm))
       <==> Asking(y, host, realm) == {}
  {
    if Asking(y, host, realm) == {} {
      forall acts ensures GrantCalls(Run(y, acts).log, host, realm) == GrantCalls(y.log, host, realm) {
        CachedGrantSettles(y, acts, host, realm);
        CallsGrow(y, acts, host, realm);
      }
    } else {
      var id :| id in Asking(y, host, realm);
      var acts := [Step(id, Served)];
      assert Run(y, acts) == Next(y, acts[0]) by { assert acts[1..] == []; }
      AskingLogs(y, id, Served, host, realm);
      assert (y.log + [GrantCall(host, realm)])[..|y.log|] == y.log;
      assert GrantCalls(Run(y, acts).log, host, realm) == GrantCalls(y.log, host, realm) + 1;
    }
  }

  // ---- one request after the other ----

  /** Cache and array after so many POSTs for one pair, each finished before the next. */
  function AfterGrants(granted: set<string>, s: ArrayState, host: string, realm: string,
          links: seq<Link>): (set<string>, ArrayState)
    decreases |links|
  {
    if links == [] then (granted, s)
    else
      var before := AfterGrants(granted, s, host, realm, links[..|links| - 1]);
      var (g, s', _) := GrantStep(before.0, before.1, host, realm, links[|links| - 1]);
      (g, s')
  }

  /** The next POST calls for the grant, instead of finding it in the cache. */
  predicate CallsNext(granted: set<string>, host: string, realm: string) {
    host != "" && realm != "" && GrantKey(host, realm) !in granted
  }

  /**
   For a host and a realm that exist, the next POST calls again if and only if no answer to an earlier call
   arrived; a lost answer is asked for once more even though the array carried the call out.
   */
  lemma {:induction false} SequentialCallsExactly(granted: set<string>,
          s: ArrayState, host: string, realm: string, links: seq<Link>)
    requires host in s.hosts && realm in s.realms && host != "" && realm != "" && GrantKey(host, realm) !in granted
    ensures var (g, t) := AfterGrants(granted, s, host, realm, links);
            && SameWorld(s, t)
            && (CallsNext(g, host, realm) <==> Served !in links)
            && (Served in links || LostAfter in links ==> (host, realm) in t.grants)
    decreases |links|
  {
    if links != [] {
      var n := |links| - 1;
      SequentialCallsExactly(granted, s, host, realm, links[..n]);
      var (g, t) := AfterGrants(granted, s, host, realm, links[..n]);
      OneGrant(g, t, host, realm, links[n]);
      assert links == links[..n] + [links[n]];
    }
  }

  lemma OneGrant(granted: set<string>, s: ArrayState, host: string, realm: string, link: Link)
    requires host in s.hosts && realm in s.realms && host != "" && realm != ""
    ensures var (g, t, _) := GrantStep(granted, s, host, realm, link);
            && SameWorld(s, t) && s.grants <= t.grants
            && (GrantKey(host, realm) in g <==> GrantKey(host, realm) in granted || link == Served)
            && (GrantKey(host, realm) !in granted && (link == Served || link == LostAfter) ==>
                  (host, realm) in t.grants)
  {
    RepeatedGrantSaysExist();
    ServeKeeps(s, Grant(host, realm));
  }

  /** Two requests that both checked an empty cache. */
  function BothAsking(s: ArrayState, p: Attach): Sys {
    Sys(map[0 := p.(pc := Ask), 1 := p.(pc := Ask)], {}, s, [])
  }

  lemma BothCheck(s: ArrayState, p: Attach)
    ensures var acts := [Arrive(0, p), Arrive(1, p), Step(0, Served), Step(1, Served)];
            Run(Sys(map[], {}, s, []), acts) == BothAsking(s, p)
  {
    var y0 := Sys(map[], {}, s, []);
    var y2 := Sys(map[0 := p.(pc := Check), 1 := p.(pc := Check)], {}, s, []);
    RunTwo(y0, Arrive(0, p), Arrive(1, p), [Step(0, Served), Step(1, Served)]);
    assert Next(Next(y0, Arrive(0, p)), Arrive(1, p)) == y2;
    RunTwo(y2, Step(0, Served), Step(1, Served), []);
    assert [Arrive(0, p), Arrive(1, p), Step(0, Served), Step(1, Served)]
        == [Arrive(0, p), Arrive(1, p)] + [Step(0, Served), Step(1, Served)];
    assert [Step(0, Served), Step(1, Served)] == [Step(0, Served), Step(1, Served)] + [];
    assert Next(Next(y2, Step(0, Served)), Step(1, Served)) == BothAsking(s, p);
  }

  /** Check-then-store is not atomic: both then call for the same pair. */
  lemma TwoCallsPossible(s: ArrayState, p: Attach)
    ensures GrantCalls(Run(BothAsking(s, p), [Step(0, Served), Step(1, Served)]).log, p.host, p.realm) == 2
  {
    var y4 := BothAsking(s, p);
    var y5 := Next(y4, Step(0, Served));
    var y6 := Next(y5, Step(1, Served));
    RunTwo(y4, Step(0, Served), Step(1, Served), []);
    assert [Step(0, Served), Step(1, Served)] == [Step(0, Served), Step(1, Served)] + [];
    AskNext(y4, 0);
    AskNext(y5, 1);
    var g := GrantCall(p.host, p.realm);
    assert y5.log == [g] && y6.log == [g, g];
    assert [g][..0] == [] && [g, g][..1] == [g];
    assert GrantCalls([g], p.host, p.realm) == 1;
  }

  lemma AskNext(y: Sys, id: nat)
    requires id in y.posts && y.posts[id].pc == Ask
    ensures var z := Next(y, Step(id, Served));
            z.log == y.log + [GrantCall(y.posts[id].host, y.posts[id].realm)] && z.posts.Keys == y.posts.Keys
            && forall j :: j in y.posts && j != id ==> z.posts[j] == y.posts[j]
  {
  }

  lemma RunTwo(y: Sys, a: Action, b: Action, rest: seq<Action>)
    ensures Run(y, [a, b] + rest) == Run(Next(Next(y, a), b), rest)
  {
    assert ([a, b] + rest)[1..] == [b] + rest;
    assert ([b] + rest)[1..] == rest;
  }

  /**
   The test for "exist" cannot tell "already exists" from "does not exist". After an answered grant call the cache
   is truthful exactly when host and realm exist on the array; otherwise the pair is cached, and the connect it
   lets through is answered with an error.
   */
  lemma CacheTruthfulExactly(granted: set<string>, s: ArrayState, host: string, realm: string)
    requires host != "" && realm != "" && Free(host, NUL)
    requires GrantsHeld(granted, s.grants) && GrantKey(host, realm) !in granted
    requires (host, realm) in s.grants ==> host in s.hosts && realm in s.realms
    ensures var (g, s', ok) := GrantStep(granted, s, host, realm, Served);
            && ok && GrantKey(host, realm) in g
            && (GrantsHeld(g, s'.grants) <==> host in s.hosts && realm in s.realms)
            && (host !in s.hosts || realm !in s.realms ==> forall volume ::
                  !IsRealmHost(host) && IsRealmHost(volume) && RealmOf(volume) == realm ==>
                    Serve(s', Connections(Verb.Post, host, volume)).1.status == 400)
  {
    RepeatedGrantSaysExist();
    MissingHostSaysExist();
    MissingRealmSaysExist();
    var (g, s', ok) := GrantStep(granted, s, host, realm, Served);
    if host in s.hosts && realm in s.realms {
      forall h, r | Free(h, NUL) && GrantKey(h, r) in g ensures (h, r) in s'.grants {
        if GrantKey(h, r) !in granted { KeyInjective(h, r, host, realm); }
      }
    } else {
      assert (host, realm) !in s'.grants;
      forall volume | !IsRealmHost(host) && IsRealmHost(volume) && RealmOf(volume) == realm
        ensures Serve(s', Connections(Verb.Post, host, volume)).1.status == 400
      {
        UntruthfulRefused(s', host, realm, volume);
      }
    }
  }

  /** The connect that an untruthful entry lets through is answered with an error. */
  lemma UntruthfulRefused(s: ArrayState, host: string, realm: string, volume: string)
    requires !IsRealmHost(host) && IsRealmHost(volume) && RealmOf(volume) == realm && (host, realm) !in s.grants
    ensures Serve(s, Connections(Verb.Post, host, volume)).1.status == 400
  {
  }

  /** Whatever the array answers: the cache stays truthful if and only if an accepted answer means the grant is held. */
  lemma AcceptedMeansHeld(granted: set<string>, grants: set<(string, string)>, host: string, realm: string, a: Answer)
    requires Free(host, NUL) && GrantsHeld(granted, grants) && GrantKey(host, realm) !in granted
    ensures GrantsHeld(if GrantAccepted(a) then granted + {GrantKey(host, realm)} else granted, grants)
       <==> (GrantAccepted(a) ==> (host, realm) in grants)
  {
    if GrantAccepted(a) && (host, realm) in grants {
      forall h, r | Free(h, NUL) && GrantKey(h, r) in granted + {GrantKey(host, realm)} ensures (h, r) in grants {
        if GrantKey(h, r) !in granted { KeyInjective(h, r, host, realm); }
      }
    }
  }

  /** A refused POST reads as a success to px if and only if the host's or the realm's name says "already". */
  lemma RefusalReadAsDuplicate(c: Call, host: string, realm: string)
    requires c.verb == Verb.Post
    ensures Translate(c, host, Answer(400, ErrorBody(NoAccess(host, realm)))).status == 200 <==>
              Contains(ToLower(host), "already") || Contains(ToLower(realm), "already")
  {
    RefusalBodySaysAlready(host, realm);
  }
}
