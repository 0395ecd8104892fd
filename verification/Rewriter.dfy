/** The shim's rewriter, with the state its handlers share. */
module Rewriter {
  import opened GoStrings
  import opened Options
  import opened QuotedText
  import opened Config
  import opened Resolve
  import opened ArraySession
  import opened FlashArray
  import opened ArrayIdentity
  import opened Protocol
  import opened Learning
  import opened Hosts
  import opened Query

  /** The server behind the shim is the model array. */
  ghost predicate ServesLikeArray(server: Server<ArrayState, Request>) {
    forall s, q :: server.serve(s, q) == Serve(s, q)
  }

  lemma FitsExtend(m: NodeMap, given: seq<Json>, i: nat, picks: seq<Option<HostMapping>>, pick: Option<HostMapping>)
    requires i < |given| && PicksFit(m, given[..i], picks) && IsResolution(m, NameOf(given[i]), pick)
    ensures PicksFit(m, given[..i + 1], picks + [pick])
  {
    var longer := picks + [pick];
    forall j | 0 <= j < i + 1 ensures IsResolution(m, NameOf(given[..i + 1][j]), longer[j]) {
      assert j < i ==> IsResolution(m, NameOf(given[..i][j]), picks[j]);
    }
  }

  lemma ItemsExtend(given: seq<Json>, i: nat, picks: seq<Option<HostMapping>>, pick: Option<HostMapping>)
    requires i < |given| && |picks| == i
    ensures given[..i + 1] == given[..i] + [given[i]]
    ensures InjectItems(given[..i + 1], picks + [pick]) == InjectItems(given[..i], picks) + [InjectItem(given[i], pick)]
  {
  }

  lemma LessonsExtend(given: seq<Json>, i: nat, relearns: seq<Option<HostMapping>>, relearn: Option<HostMapping>)
    requires i < |given| && |relearns| == i
    ensures Lessons(given[..i + 1], relearns + [relearn])
         == Lessons(given[..i], relearns) + [Lesson(NameOf(given[i]), relearn)]
  {
  }

  /** One more listed item: the lists of items, picks and lessons grow together. */
  lemma ExtendListed(learned: map<string, string>, given: seq<Json>, i: nat, picks: seq<Option<HostMapping>>,
          relearns: seq<Option<HostMapping>>, pick: Option<HostMapping>, relearn: Option<HostMapping>)
    requires i < |given| && |picks| == |relearns| == i
    ensures given[..i + 1] == given[..i] + [given[i]]
    ensures InjectItems(given[..i + 1], picks + [pick]) == InjectItems(given[..i], picks) + [InjectItem(given[i], pick)]
    ensures LearnAll(learned, Lessons(given[..i + 1], relearns + [relearn]))
         == Learn(LearnAll(learned, Lessons(given[..i], relearns)), NameOf(given[i]), relearn)
  {
    ItemsExtend(given, i, picks, pick);
    LessonsExtend(given, i, relearns, relearn);
    LearnAllAppend(learned, Lessons(given[..i], relearns), Lesson(NameOf(given[i]), relearn));
  }

  lemma InterceptsExactly(shim: Shim, s: ArrayState, session: bool, c: Call)
    ensures ConnectionStep(shim, s, session, c).2.Some? <==> Intercepts(c, session)
  {
  }

  /** A request that the shim answers itself. */
  lemma Intercepted(shim: Shim, s: ArrayState, session: bool, ids: Ids, c: Call)
    requires ConnectionStep(shim, s, session, c).2.Some?
    ensures var (shim1, s1, synth) := ConnectionStep(shim, s, session, c);
            HandleStep(shim, s, session, ids, c) == (shim1, s1, synth.value)
    ensures Intercepts(c, session)
  {
  }

  /** A request that passes through has made no call on the array host. */
  lemma PassedOn(shim: Shim, s: ArrayState, session: bool, ids: Ids, before: Call, c: Call, shim1: Shim, s1: ArrayState)
    requires ConnectionStep(shim, s, session, before) == (shim1, s1, None) && c == before.(link := c.link)
    ensures var (s2, a) := ForwardStep(shim1.learned, s1, ids, c);
            HandleStep(shim, s, session, ids, c) == (shim1, s2, a)
    ensures !Intercepts(before, session) && !Intercepts(c, session)
  {
  }

  // ---- what a request puts on the wire ----

  /** The grant's messages: none if the pair is cached or not one, otherwise those of a whole call. */
  ghost predicate GrantWire(granted: set<string>, auth: nat, host: string,
          realm: string, link: Link, es: seq<Event<Request>>)
  {
    if host == "" || realm == "" || GrantKey(host, realm) in granted then es == [] && link.Served?
    else CallTrace(auth, Grant(host, realm), es) && link == EndOf(es)
  }

  /** An intercepted request: before a POST the grant's messages, and, unless that failed, those of the call. */
  ghost predicate ConnectionWire(shim: Shim, s: ArrayState, auth: nat, c: Call,
          granting: seq<Event<Request>>, calling: seq<Event<Request>>)
    requires c.pick.Some?
  {
    var host := c.pick.value.arrayHost;
    && (if c.verb.Post? then GrantWire(shim.granted, auth, host, RealmOf(c.hostName), c.grantLink, granting)
        else granting == [])
    && CallWire(GrantFirst(shim.granted, s, c, host).2, AuthAfter(auth, granting), c, host, calling)
  }

  ghost predicate CallWire(ok: bool, auth: nat, c: Call, host: string, es: seq<Event<Request>>) {
    if ok then CallTrace(auth, Connections(c.verb, host, c.volumeName), es) && c.link == EndOf(es) else es == []
  }

  /** A request passed on, as it is sent: under px's own token and with its query rewritten. */
  ghost function ForwardedSend(ids: Ids, c: Call, token: nat): Event<Request> {
    var q := Forwarded(ids.asked, c.fqdn, c.hostName, c.volumeName);
    Sent(token, Connections(c.verb, q.host, q.volume), c.link)
  }

  lemma NothingMore(t: seq<Event<Request>>, es: seq<Event<Request>>)
    ensures t + es + [] == t + es && t + [] + es == t + es && t + [] + [] == t
  {
  }

  /** The shim takes the request on itself. */
  predicate Intercepts(c: Call, session: bool) {
    c.hostName != "" && IsRealmHost(c.hostName) && c.pick.Some? && session
  }

  /** The grant does not depend on how the call ends, nor the call on how the grant did. */
  lemma GrantThenCall(shim: Shim, s: ArrayState, before: Call, g: Link, l: Link,
          host: string, granted: set<string>, s': ArrayState, ok: bool)
    requires (granted, s', ok) ==
               if before.verb == Post then GrantStep(shim.granted, s, host, RealmOf(before.hostName), g)
               else (shim.granted, s, true)
    ensures var c := before.(grantLink := g, link := l);
            && GrantFirst(shim.granted, s, c, host) == (granted, s', ok)
            && GrantAndCall(shim, s, c, host) ==
                 (var (t, r) := Outcome(s', Serve(s', Connections(before.verb, host, before.volumeName)), l);
                  if !ok then (shim.(granted := granted), s', GRANT_FAILED)
                  else (shim.(granted := granted), t,
                        if r.None? then CALL_FAILED else Translate(before, host, r.value)))
  {
  }

  class Rewriter {
    const byNode: NodeMap
    const upstream: Server<ArrayState, Request>
    const arr: Session?<ArrayState, Request>
    const ident: ArrayIdentity?
    var byArrayHost: map<string, string>
    var granted: set<string>

    ghost predicate Valid()
      reads upstream
    {
      && ByNode(byNode)
      && upstream.Valid() && ServesLikeArray(upstream)
      && (arr != null ==> arr.server == upstream)
    }

    /** The array's sessions, as the shim holds one: its token, or 0. */
    ghost function Auth(): nat reads this, arr { if arr == null then 0 else arr.auth }

    ghost function State(): Shim reads this { Shim(byArrayHost, granted) }

    ghost function Known(): Option<Identity> reads this, ident { if ident == null then None else ident.Known() }

    constructor (hosts: seq<HostMapping>, upstream: Server<ArrayState, Request>, session: bool, arrayIdentity: bool)
      requires upstream.Valid() && ServesLikeArray(upstream)
      ensures Valid() && this.upstream == upstream && (arr != null <==> session) && (ident != null <==> arrayIdentity)
      ensures State() == Shim(map[], {})
      ensures forall n :: LastOfNode(hosts, n) == if n in byNode then Some(byNode[n]) else None
      ensures arr != null ==> fresh(arr)
      ensures ident != null ==> fresh(ident) && Known() == None
    {
      var m := IndexHosts(hosts);
      byNode := m;
      this.upstream := upstream;
      byArrayHost, granted := map[], {};
      if session {
        var a := new Session(upstream);
        arr := a;
      } else {
        arr := null;
      }
      if arrayIdentity {
        var i := new ArrayIdentity();
        ident := i;
      } else {
        ident := null;
      }
    }

    method LearnRealmHost(realmHost: string) returns (ghost pick: Option<HostMapping>)
      requires ByNode(byNode)
      modifies this`byArrayHost
      ensures IsResolution(byNode, realmHost, pick)
      ensures byArrayHost == Learn(old(byArrayHost), realmHost, pick)
    {
      var hm := ResolveName(byNode, realmHost);
      pick := hm;
      if hm.None? { return; }
      var i := Index(realmHost, "::");
      if i < 0 || realmHost[i + 2..] == hm.value.arrayHost { return; }
      byArrayHost := byArrayHost[hm.value.arrayHost := realmHost];
    }

    /** The learned names are replaced in whatever order the map gives; for exchangeable names it does not matter. */
    method MapConnHostsBack(body: string) returns (out: string, ghost order: seq<string>)
      ensures Enumerates(order, byArrayHost) && out == InOrder(order, byArrayHost, body)
      ensures Exchangeable(byArrayHost) ==> out == MapText(byArrayHost, body)
    {
      out, order := body, [];
      var rest := byArrayHost.Keys;
      while rest != {}
        invariant rest <= byArrayHost.Keys && NoRepeats(order)
        invariant forall k :: k in order <==> k in byArrayHost && k !in rest
        invariant out == InOrder(order, byArrayHost, body)
        decreases rest
      {
        var k :| k in rest;
        rest := rest - {k};
        var v := byArrayHost[k];
        out := ReplaceAll(out, Quoted(k), Quoted(v));
        assert (order + [k])[..|order|] == order;
        order := order + [k];
      }
      if Exchangeable(byArrayHost) { OrderIrrelevant(order, byArrayHost, body); }
    }

    method EnsureRealmAccess(arrayHost: string, realm: string)
      returns (ok: bool, ghost link: Link, ghost added: seq<Event<Request>>)
      requires Valid() && arr != null
      modifies this`granted, arr`auth, upstream
      ensures Valid()
      ensures (granted, upstream.state, ok) == GrantStep(old(granted), old(upstream.state), arrayHost, realm, link)
      ensures upstream.trace == old(upstream.trace) + added && arr.auth == AuthAfter(old(arr.auth), added)
      ensures GrantWire(old(granted), old(arr.auth), arrayHost, realm, link, added)
    {
      link, added := Served, [];
      if arrayHost == "" || realm == "" { return true, link, added; }
      var key := arrayHost + [NUL] + realm;
      if key in granted { return true, link, added; }
      var a;
      a, link, added := arr.Do(Grant(arrayHost, realm));
      if a.None? { return false, link, added; }
      var status, respBody := a.value.status, a.value.body;
      if status == 200 || (status == 400 && Contains(ToLower(respBody), "exist")) {
        granted := granted + {key};
        return true, link, added;
      }
      return false, link, added;
    }

    /** The connection call on the array host; its answer comes back under px's name. */
    method CallArrayHost(verb: Verb, arrayHost: string, hostNames: string, volumeNames: string, ghost c: Call)
      returns (a: Answer, ghost link: Link, ghost added: seq<Event<Request>>)
      requires Valid() && arr != null && c.verb == verb && c.hostName == hostNames && c.volumeName == volumeNames
      modifies arr`auth, upstream
      ensures Valid()
      ensures var (s, r) := Outcome(old(upstream.state),
                                    Serve(old(upstream.state), Connections(verb, arrayHost, volumeNames)), link);
              upstream.state == s && a == if r.None? then CALL_FAILED else Translate(c, arrayHost, r.value)
      ensures upstream.trace == old(upstream.trace) + added && link == EndOf(added)
      ensures CallTrace(old(arr.auth), Connections(verb, arrayHost, volumeNames), added)
    {
      var r;
      r, link, added := arr.Do(Connections(verb, arrayHost, volumeNames));
      if r.None? { return CALL_FAILED, link, added; }
      var status, respBody := r.value.status, r.value.body;
      if verb == Post && status == 400 && Contains(ToLower(respBody), "already") {
        return Answer(200, Render([Conn(hostNames, volumeNames)])), link, added;
      }
      respBody := ReplaceAll(respBody, Quoted(arrayHost), Quoted(hostNames));
      return Answer(status, respBody), link, added;
    }

    /** Only a POST needs the grant. */
    method EnsureFor(verb: Verb, arrayHost: string, realm: string)
      returns (ok: bool, ghost link: Link, ghost added: seq<Event<Request>>)
      requires Valid() && arr != null
      modifies this`granted, arr`auth, upstream
      ensures Valid()
      ensures (granted, upstream.state, ok) ==
                if verb == Post then GrantStep(old(granted), old(upstream.state), arrayHost, realm, link)
                else (old(granted), old(upstream.state), true)
      ensures upstream.trace == old(upstream.trace) + added && arr.auth == AuthAfter(old(arr.auth), added)
      ensures if verb.Post? then GrantWire(old(granted), old(arr.auth), arrayHost, realm, link, added) else added == []
    {
      if verb == Post {
        ok, link, added := EnsureRealmAccess(arrayHost, realm);
      } else {
        ok, link, added := true, Served, [];
      }
    }

    /** The intercepted request once its name is learned: the grant before a POST, and the call. */
    method GrantAndCallHost(verb: Verb, arrayHost: string, hostNames: string, volumeNames: string, ghost before: Call)
      returns (a: Answer, ghost c: Call, ghost granting: seq<Event<Request>>, ghost calling: seq<Event<Request>>)
      requires Valid() && arr != null && before.verb == verb && before.hostName == hostNames
      requires before.volumeName == volumeNames && before.pick.Some? && before.pick.value.arrayHost == arrayHost
      modifies this`granted, arr`auth, upstream
      ensures Valid() && c == before.(grantLink := c.grantLink, link := c.link)
      ensures (State(), upstream.state, a) == GrantAndCall(old(State()), old(upstream.state), c, arrayHost)
      ensures upstream.trace == old(upstream.trace) + granting + calling
      ensures ConnectionWire(old(State()), old(upstream.state), old(arr.auth), c, granting, calling)
    {
      ghost var shim, s, trace := State(), upstream.state, upstream.trace;
      var ok;
      ghost var g, l := Served, before.link;
      ok, g, granting := EnsureFor(verb, arrayHost, RealmOf(hostNames));
      ghost var granted', s' := granted, upstream.state;
      calling := [];
      if ok {
        a, l, calling := CallArrayHost(verb, arrayHost, hostNames, volumeNames, before);
      } else {
        a := GRANT_FAILED;
      }
      c := before.(grantLink := g, link := l);
      NothingMore(trace, granting);
      GrantThenCall(shim, s, before, g, l, arrayHost, granted', s', ok);
    }

    method Connection(verb: Verb, fqdn: string, hostNames: string, volumeNames: string)
      returns (synth: Option<Answer>, ghost c: Call, ghost granting: seq<Event<Request>>,
             ghost calling: seq<Event<Request>>)
      requires Valid()
      modifies this, upstream, if arr == null then {} else {arr}
      ensures Valid()
      ensures c.verb == verb && c.fqdn == fqdn && c.hostName == hostNames && c.volumeName == volumeNames
      ensures PicksOk(byNode, c)
      ensures (State(), upstream.state, synth) == ConnectionStep(old(State()), old(upstream.state), arr != null, c)
      ensures if Intercepts(c, arr != null)
              then && upstream.trace == old(upstream.trace) + granting + calling
                   && ConnectionWire(old(State()), old(upstream.state), old(Auth()), c, granting, calling)
              else upstream.trace == old(upstream.trace) && granting == calling == []
    {
      var hm := ResolveName(byNode, hostNames);
      c := Call(verb, fqdn, hostNames, volumeNames, hm, hm, Served, Served);
      granting, calling := [], [];
      if hostNames == "" || !IsRealmHost(hostNames) { return None, c, granting, calling; }
      if hm.None? { return None, c, granting, calling; }
      ghost var relearn := LearnRealmHost(hostNames);
      c := c.(relearn := relearn);
      if arr == null { return None, c, granting, calling; }
      var a;
      a, c, granting, calling := GrantAndCallHost(verb, hm.value.arrayHost, hostNames, volumeNames, c);
      synth := Some(a);
    }

    /** The raw query of a request to be forwarded, with the synthetic identity mapped back in it. */
    method RewriteRequest(fqdn: string, raw: string, reply: ArraysReply) returns (out: string)
      modifies ident
      ensures Known() == if ident == null || raw == "" then old(Known()) else Latch(old(Known()), reply)
      ensures out == AskText(Known(), fqdn, raw)
    {
      if ident == null { return raw; }
      out := raw;
      if raw != "" {
        out := ident.RewriteRequestString(fqdn, raw, reply);
      }
    }

    /** The body part of ModifyResponse: array identity first, then the listing's host names. */
    method ModifyResponse(isConnList: bool, fqdn: string, body: string, reply: ArraysReply)
      returns (out: string, ghost order: seq<string>)
      modifies ident
      ensures Known() == if ident == null then None else Latch(old(Known()), reply)
      ensures var b := IdentText(Known(), fqdn, body);
              if isConnList then Enumerates(order, byArrayHost) && out == InOrder(order, byArrayHost, b) else out == b
      ensures Exchangeable(byArrayHost) ==>
                out == var b := IdentText(Known(), fqdn, body); if isConnList then MapText(byArrayHost, b) else b
    {
      out, order := body, [];
      if ident == null && !isConnList { return; }
      if ident != null {
        out := ident.RewriteResponseBody(fqdn, out, reply);
      }
      if isConnList {
        out, order := MapConnHostsBack(out);
      }
    }

    /** Fill the empty configured fields of one decoded item, in place. */
    method InjectInto(m: map<string, Json>, h: HostMapping) returns (out: map<string, Json>, changed: bool)
      ensures out == InjectFields(m, InitiatorsOf(h))
      ensures !changed ==> out == m
    {
      out, changed := m, false;
      var ins := Initiators(h);
      var i := 0;
      while i < |ins|
        invariant i <= |ins|
        invariant InjectFields(out, ins[i..]) == InjectFields(m, ins)
        invariant !changed ==> out == m
      {
        assert ins[i..][1..] == ins[i + 1..];
        var f := ins[i].field;
        if f !in out || !out[f].Arr? || |out[f].items| == 0 {
          out := out[f := StrArr(ins[i].vals)];
          changed := true;
        }
        i := i + 1;
      }
    }

    /** One listed item: learn its name and fill its empty fields, if it resolves. */
    method InjectOne(item: Json)
      returns (out: Json, filled: bool, ghost pick: Option<HostMapping>, ghost relearn: Option<HostMapping>)
      requires ByNode(byNode)
      modifies this`byArrayHost
      ensures IsResolution(byNode, NameOf(item), pick) && IsResolution(byNode, NameOf(item), relearn)
      ensures out == InjectItem(item, pick)
      ensures !filled ==> out == item
      ensures byArrayHost == Learn(old(byArrayHost), NameOf(item), relearn)
    {
      var hm := ResolveName(byNode, NameOf(item));
      out, filled, pick, relearn := item, false, hm, hm;
      if item.Obj? && hm.Some? {
        relearn := LearnRealmHost(NameOf(item));
        var m;
        m, filled := InjectInto(item.fields, hm.value);
        out := Obj(m);
      }
    }

    /** The loop over the listed items: learn each realm host's name and fill its empty fields. */
    method InjectListed(given: seq<Json>)
      returns (items: seq<Json>, changed: bool,
        ghost picks: seq<Option<HostMapping>>, ghost relearns: seq<Option<HostMapping>>)
      requires ByNode(byNode) && forall i :: 0 <= i < |given| ==> given[i].Obj? || given[i].Null?
      modifies this`byArrayHost
      ensures PicksFit(byNode, given, picks) && PicksFit(byNode, given, relearns)
      ensures items == InjectItems(given, picks)
      ensures !changed ==> items == given
      ensures byArrayHost == LearnAll(old(byArrayHost), Lessons(given, relearns))
    {
      items, changed, picks, relearns := [], false, [], [];
      for i := 0 to |given|
        invariant PicksFit(byNode, given[..i], picks) && PicksFit(byNode, given[..i], relearns)
        invariant items == InjectItems(given[..i], picks)
        invariant !changed ==> items == given[..i]
        invariant byArrayHost == LearnAll(old(byArrayHost), Lessons(given[..i], relearns))
      {
        var item, filled, pick, relearn := InjectOne(given[i]);
        changed := changed || filled;
        FitsExtend(byNode, given, i, picks, pick);
        FitsExtend(byNode, given, i, relearns, relearn);
        ExtendListed(old(byArrayHost), given, i, picks, relearns, pick, relearn);
        items, picks, relearns := items + [item], picks + [pick], relearns + [relearn];
      }
      assert given[..|given|] == given;
    }

    /**
     GET /hosts on its way back: initiators injected and names learned item by item, or a wildcard's
     "no matching hosts" turned into an empty list. `text` is the body before it is decoded.
     */
    method ModifyHostsResponse(status: int, names: string, text: string, body: Json)
      returns (status': int, out: Json, ghost picks: seq<Option<HostMapping>>, ghost relearns: seq<Option<HostMapping>>)
      requires ByNode(byNode)
      modifies this`byArrayHost
      ensures status == 200 ==>
                && PicksFit(byNode, ItemsOf(body), picks) && PicksFit(byNode, ItemsOf(body), relearns)
                && status' == 200 && out == InjectBody(body, picks)
                && byArrayHost == LearnAll(old(byArrayHost), Lessons(ItemsOf(body), relearns))
      ensures status != 200 ==> byArrayHost == old(byArrayHost)
      ensures status != 200 ==>
                if status == 400 && Contains(names, "*") && Contains(ToLower(text), "no matching hosts") then
                  status' == 200 && out == EMPTY_LISTING
                else
                  status' == status && out == body
    {
      picks, relearns := [], [];
      status', out := status, body;
      if status == 400 {
        if Contains(names, "*") && Contains(ToLower(text), "no matching hosts") {
          status', out := 200, EMPTY_LISTING;
        }
        return;
      }
      if status != 200 || !Decodes(body) {
        assert LearnAll(byArrayHost, Lessons([], [])) == byArrayHost;
        return;
      }
      var items, changed;
      items, changed, picks, relearns := InjectListed(body.fields["items"].items);
      if changed {
        out := Obj(body.fields["items" := Arr(items)]);
      } else {
        assert body.fields["items" := Arr(items)] == body.fields;
      }
    }

    /** What is known when the query is rewritten, and, if there is an answer, when that is. */
    ghost predicate Discovers(known: Option<Identity>, raw: string,
            asking: ArraysReply, telling: ArraysReply, link: Link, ids: Ids)
      reads this, ident
    {
      && ids.asked == (if ident == null || raw == "" then known else Latch(known, asking))
      && ids.told == (if ident == null || link.LostBefore? || link.LostAfter? then ids.asked
                      else Latch(ids.asked, telling))
    }

    /**
     A request passed on: one send of it under px's token, with its query rewritten, and its answer rewritten on the
     way back, the learned names in whatever order the map gave.
     */
    method Forward(verb: Verb, fqdn: string, hostNames: string, volumeNames: string, pxToken: nat, asking: ArraysReply,
            telling: ArraysReply, ghost before: Call)
      returns (a: Answer, ghost c: Call, ghost ids: Ids, ghost order: seq<string>)
      requires Valid() && before.verb == verb && before.fqdn == fqdn
      requires before.hostName == hostNames && before.volumeName == volumeNames
      modifies upstream, ident
      ensures Valid() && c == before.(link := c.link) && ids.told == Known()
      ensures Discovers(old(Known()), RawQuery(hostNames, volumeNames), asking, telling, c.link, ids)
      ensures upstream.trace == old(upstream.trace) + [ForwardedSend(ids, c, pxToken)]
      ensures var (s, b) := ForwardStep(byArrayHost, old(upstream.state), ids, c);
              upstream.state == s && a.status == b.status && (Exchangeable(byArrayHost) ==> a == b)
      ensures var (_, r) := ForwardedOutcome(old(upstream.state), ids, c);
              r.Some? ==>
                var body := IdentText(ids.told, fqdn, r.value.body);
                if verb == Get then Enumerates(order, byArrayHost) && a.body == InOrder(order, byArrayHost, body)
                else a.body == body
    {
      var q := RewriteRequest(fqdn, RawQuery(hostNames, volumeNames), asking);
      ids, order := Ids(Known(), Known()), [];
      var u, l := upstream.Receive(pxToken, Connections(verb, Param(q, HOSTS), Param(q, VOLUMES)));
      c := before.(link := l);
      if u.None? { return UPSTREAM_FAILED, c, ids, order; }
      var body;
      body, order := ModifyResponse(verb == Get, fqdn, u.value.body, telling);
      ids := ids.(told := Known());
      return Answer(u.value.status, body), c, ids, order;
    }

    /** Whose messages these are, the shim's own or px's request passed on, and what was known of the identity. */
    ghost predicate OnTheWire(shim: Shim, s: ArrayState, auth: nat, known: Option<Identity>,
            c: Call, ids: Ids, pxToken: nat, asking: ArraysReply, telling: ArraysReply,
            granting: seq<Event<Request>>, calling: seq<Event<Request>>)
      reads this, ident
    {
      if Intercepts(c, arr != null) then
        && ConnectionWire(shim, s, auth, c, granting, calling)
        && ids == Ids(known, known)
      else
        && granting == [] && calling == [ForwardedSend(ids, c, pxToken)]
        && Discovers(known, RawQuery(c.hostName, c.volumeName), asking, telling, c.link, ids)
    }

    /**
     One /connections request through the whole pipeline; px's own session token is anything. The identity may
     become known before the query is rewritten or before the answer is. `granting` and `calling` are the messages
     of the request.
     */
    method Handle(verb: Verb, fqdn: string, hostNames: string, volumeNames: string,
            pxToken: nat, asking: ArraysReply, telling: ArraysReply)
      returns (a: Answer, ghost c: Call, ghost ids: Ids, ghost granting: seq<Event<Request>>,
             ghost calling: seq<Event<Request>>)
      requires Valid()
      modifies this, upstream, (if arr == null then {} else {arr}), if ident == null then {} else {ident}
      ensures Valid()
      ensures c.verb == verb && c.fqdn == fqdn && c.hostName == hostNames && c.volumeName == volumeNames
      ensures PicksOk(byNode, c) && ids.told == Known()
      ensures upstream.trace == old(upstream.trace) + granting + calling
      ensures OnTheWire(old(State()), old(upstream.state), old(Auth()), old(Known()), c, ids, pxToken, asking, telling,
                        granting, calling)
      ensures var r := HandleStep(old(State()), old(upstream.state), arr != null, ids, c);
              && State() == r.0 && upstream.state == r.1
              && a.status == r.2.status && (Exchangeable(byArrayHost) ==> a == r.2)
    {
      ghost var shim, s, session, trace := State(), upstream.state, arr != null, upstream.trace;
      var synth;
      synth, c, granting, calling := Connection(verb, fqdn, hostNames, volumeNames);
      ids := Ids(Known(), Known());
      InterceptsExactly(shim, s, session, c);
      if synth.Some? {
        Intercepted(shim, s, session, ids, c);
        return synth.value, c, ids, granting, calling;
      }
      ghost var shim1, s1, before := State(), upstream.state, c;
      ghost var order;
      a, c, ids, order := Forward(verb, fqdn, hostNames, volumeNames, pxToken, asking, telling, before);
      PassedOn(shim, s, session, ids, before, c, shim1, s1);
      NothingMore(trace, [ForwardedSend(ids, c, pxToken)]);
      calling := [ForwardedSend(ids, c, pxToken)];
    }
  }
}
