/** The running shim, request by request, in front of the model array: it is the plain array of `Refinement`. */
module EndToEnd {
  import opened GoStrings
  import opened Options
  import opened Config
  import opened Resolve
  import opened ArraySession
  import opened FlashArray
  import opened ArrayIdentity
  import opened Protocol
  import opened Query
  import opened Learning
  import opened Hosts
  import opened Refinement
  import opened Rewriter

  /** px's request names no host, or the one name px has for a host; its volume is no name the shim exchanges. */
  ghost predicate PxAsks(naming: Naming, ident: Option<Identity>,
          verb: Verb, fqdn: string, hostName: string, volumeName: string)
  {
    && VolumeOk(naming, ident, volumeName)
    && (hostName == "" ==> verb == Get && QueryClean(ident, fqdn, "", volumeName))
    && (hostName != "" ==> exists k :: k in naming && naming[k] == hostName)
  }

  lemma NameResolves(m: NodeMap, naming: Naming, k: string, r: Option<HostMapping>)
    requires NamingOk(m, naming) && k in naming && IsResolution(m, naming[k], r)
    ensures r.Some? && r.value.arrayHost == k
  {
    assert NameOk(m, naming, k);
    var n :| n in m && m[n].arrayHost == k && Matches(m[n], AfterRealm(naming[k]));
    UniqueMatch(m, n, r.value.node, AfterRealm(naming[k]));
  }

  /** Whatever resolutions the map order gave, they are the right ones. */
  lemma PxCallOk(m: NodeMap, naming: Naming, ident: Option<Identity>, c: Call)
    requires NamingOk(m, naming) && PicksOk(m, c) && PxAsks(naming, ident, c.verb, c.fqdn, c.hostName, c.volumeName)
    ensures CallOk(m, naming, ident, c)
  {
    if c.hostName != "" {
      var k :| k in naming && naming[k] == c.hostName;
      NameResolves(m, naming, k, c.pick);
    }
  }

  /** An array host's name: not realm-scoped, and no token of an answer. */
  predicate PlainName(k: string) { k != "" && k !in STRUCTURE && Free(k, '"') && Free(k, NUL) && !IsRealmHost(k) }

  /** px's own name "<realm>::<node>-<suffix>" for a node's array host is one the refinement admits. */
  lemma PxNameFits(m: NodeMap, naming: Naming, node: string, realm: string, suffix: string)
    requires ByNode(m) && node in m && m[node].arrayHost in naming && PlainName(m[node].arrayHost)
    requires naming[m[node].arrayHost] == realm + "::" + (node + "-" + suffix)
    requires realm != "" && Free(realm, ':')
    requires Free(naming[m[node].arrayHost], '"') && node + "-" + suffix != m[node].arrayHost
    ensures NameOk(m, naming, m[node].arrayHost) && RealmOf(naming[m[node].arrayHost]) == realm
  {
    var after := node + "-" + suffix;
    var name := realm + "::" + after;
    FirstSeparator(realm, after);
    assert name[..|realm|] == realm && name[|realm| + 2..] == after;
    assert node + "-" <= after;
    assert Matches(m[node], AfterRealm(name));
  }

  /**
   A deployment with one node, px's name for it, and a volume, with the array identity on or off: all the refinement
   asks for holds at the start.
   */
  lemma OneNodeFits(h: HostMapping, realm: string, suffix: string,
          volume: string, ident: Option<Identity>, fqdn: string)
    requires PlainName(h.arrayHost) && realm != "" && Free(realm, ':')
    requires Free(realm + "::" + (h.node + "-" + suffix), '"')
    requires h.node + "-" + suffix != h.arrayHost
    requires volume != h.arrayHost && Free(volume, '"') && NotIdent(ident, volume)
    requires ident.Some? ==> PlainName(ident.value.id) && PlainName(ident.value.name) && NotIdent(ident, h.arrayHost)
    ensures var m, naming := map[h.node := h], map[h.arrayHost := realm + "::" + (h.node + "-" + suffix)];
            && NamingOk(m, naming) && IdentOk(ident, naming)
            && Untouched(naming, ident, ArrayState({h.arrayHost}, {realm}, {}, []))
            && PxAsks(naming, ident, Post, fqdn, naming[h.arrayHost], volume)
            && (QueryClean(ident, fqdn, "", volume) ==> PxAsks(naming, ident, Get, fqdn, "", volume))
  {
    var m, naming := map[h.node := h], map[h.arrayHost := realm + "::" + (h.node + "-" + suffix)];
    PxNameFits(m, naming, h.node, realm, suffix);
    assert forall a, b :: a in m && b in m ==> a == b;
    assert h.arrayHost in naming;
  }

  /** What GET /arrays reports is the array's one identity. */
  predicate AboutArray(ident: Option<Identity>, reply: ArraysReply) { Usable(reply) ==> ident == Some(reply.items[0]) }

  /** No message was lost, none went unanswered, no login was refused and no session rejected. */
  predicate Undisturbed(es: seq<Event<Request>>) {
    forall i :: 0 <= i < |es| ==> es[i].LoggedIn? || (es[i].Sent? && es[i].link.Served?)
  }

  lemma CallUndisturbed(auth: nat, req: Request, es: seq<Event<Request>>)
    requires CallTrace(auth, req, es) && Undisturbed(es)
    ensures EndOf(es).Served?
  {
    CallBounds(auth, req, es);
    assert es[|es| - 1].LoggedIn? || es[|es| - 1].link.Served?;
  }

  /** A request whose messages were not disturbed has had all its calls served. */
  lemma WireUndisturbed(shim: Shim, s: ArrayState, auth: nat, c: Call,
          granting: seq<Event<Request>>, calling: seq<Event<Request>>)
    requires c.pick.Some? && ConnectionWire(shim, s, auth, c, granting, calling)
    requires Undisturbed(granting) && Undisturbed(calling)
    ensures c.verb == Post ==> c.grantLink == Served
    ensures GrantFirst(shim.granted, s, c, c.pick.value.arrayHost).2 ==> c.link == Served
  {
    var host, realm := c.pick.value.arrayHost, RealmOf(c.hostName);
    if c.verb == Post && granting != [] { CallUndisturbed(auth, Grant(host, realm), granting); }
    if calling != [] { CallUndisturbed(AuthAfter(auth, granting), Connections(c.verb, host, c.volumeName), calling); }
  }

  /** The next eight messages go smoothly. */
  predicate SmoothAhead(net: Net, n: nat) { forall i :: n <= i < n + 8 ==> Smooth(net.weather(i)) }

  lemma {:induction false} FaithfulBefore(net: Net, es: seq<Event<Request>>, more: seq<Event<Request>>)
    requires Faithful(net, es + more)
    ensures Faithful(net, es)
    decreases |more|
  {
    if more == [] {
      assert es + more == es;
    } else {
      assert (es + more)[..|es + more| - 1] == es + more[..|more| - 1];
      FaithfulBefore(net, es, more[..|more| - 1]);
    }
  }

  /** On a smooth network all calls of a request are served, whatever token the session held. */
  lemma WireSmooth(net: Net, before: seq<Event<Request>>, shim: Shim, s: ArrayState, auth: nat, c: Call,
          granting: seq<Event<Request>>, calling: seq<Event<Request>>)
    requires c.pick.Some? && ConnectionWire(shim, s, auth, c, granting, calling)
    requires Faithful(net, before + granting + calling) && SmoothAhead(net, |before|)
    ensures c.verb == Post ==> c.grantLink == Served
    ensures GrantFirst(shim.granted, s, c, c.pick.value.arrayHost).2 ==> c.link == Served
  {
    var host, realm := c.pick.value.arrayHost, RealmOf(c.hostName);
    FaithfulBefore(net, before + granting, calling);
    if c.verb == Post && granting != [] {
      SmoothServed(net, before, auth, Grant(host, realm), granting);
      CallBounds(auth, Grant(host, realm), granting);
    }
    if calling != [] {
      assert |granting| <= 4;
      SmoothServed(net, before + granting, AuthAfter(auth, granting), Connections(c.verb, host, c.volumeName), calling);
    }
  }

  /** What has to go well: the messages of the request did, or the network is smooth and px's own session alive. */
  ghost predicate WentWell(net: Net, before: seq<Event<Request>>, pxToken: nat, es: seq<Event<Request>>) {
    Undisturbed(es) || (SmoothAhead(net, |before|) && pxToken in LiveAfter(net, before))
  }

  lemma SendServed(net: Net, before: seq<Event<Request>>, pxToken: nat, e: Event<Request>)
    requires Faithful(net, before + [e]) && e.Sent? && e.token == pxToken
    requires WentWell(net, before, pxToken, [e])
    ensures e.link.Served?
  {
    FaithfulAt(net, before + [e], |before|);
    assert (before + [e])[..|before|] == before;
    assert Undisturbed([e]) ==> [e][0].link.Served?;
  }

  lemma CallsServed(net: Net, before: seq<Event<Request>>, pxToken: nat, shim: Shim, s: ArrayState, auth: nat, c: Call,
          granting: seq<Event<Request>>, calling: seq<Event<Request>>)
    requires c.pick.Some? && ConnectionWire(shim, s, auth, c, granting, calling)
    requires Faithful(net, before + granting + calling) && WentWell(net, before, pxToken, granting + calling)
    ensures c.verb == Post ==> c.grantLink == Served
    ensures GrantFirst(shim.granted, s, c, c.pick.value.arrayHost).2 ==> c.link == Served
  {
    var es := granting + calling;
    if Undisturbed(es) {
      assert forall i :: 0 <= i < |granting| ==> es[i] == granting[i];
      assert forall i :: 0 <= i < |calling| ==> es[|granting| + i] == calling[i];
      WireUndisturbed(shim, s, auth, c, granting, calling);
    } else {
      WireSmooth(net, before, shim, s, auth, c, granting, calling);
    }
  }

  lemma Together(before: seq<Event<Request>>, granting: seq<Event<Request>>, calling: seq<Event<Request>>)
    ensures before + granting + calling == before + (granting + calling)
  {
  }

  /** Messages that went well carry a request that is not lost. */
  lemma WellCarried(m: NodeMap, naming: Naming, ident: Option<Identity>, net: Net,
          before: seq<Event<Request>>, pxToken: nat, shim: Shim, s: ArrayState, auth: nat,
          c: Call, ids: Ids, granting: seq<Event<Request>>, calling: seq<Event<Request>>)
    requires NamingOk(m, naming) && CallOk(m, naming, ident, c) && HostsThere(naming, s)
    requires if Intercepts(c, true) then ConnectionWire(shim, s, auth, c, granting, calling)
             else granting == [] && calling == [ForwardedSend(ids, c, pxToken)]
    requires Faithful(net, before + granting + calling) && WentWell(net, before, pxToken, granting + calling)
    ensures Fate(shim, s, c) == Served
  {
    if c.hostName == "" {
      assert granting + calling == [ForwardedSend(ids, c, pxToken)];
      assert before + granting + calling == before + [ForwardedSend(ids, c, pxToken)];
      SendServed(net, before, pxToken, ForwardedSend(ids, c, pxToken));
    } else {
      PxNameIsRealmHost(m, naming, c.pick.value.arrayHost);
      CallsServed(net, before, pxToken, shim, s, auth, c, granting, calling);
    }
    UndisturbedFate(m, naming, ident, shim, s, c);
  }

  /** Replies about the array leave the shim with no identity, or with the array's. */
  lemma KnownRight(rw: Rewriter, ident: Option<Identity>, known: Option<Identity>, raw: string, asking: ArraysReply,
          telling: ArraysReply, link: Link, ids: Ids)
    requires known.None? || known == ident
    requires AboutArray(ident, asking) && AboutArray(ident, telling)
    requires rw.Discovers(known, raw, asking, telling, link, ids) || ids == Ids(known, known)
    ensures KnownAs(ident, ids)
  {
  }

  /** One request at the level of the protocol, with everything the running shim needs to know about it. */
  lemma RequestRefines(m: NodeMap, naming: Naming, ident: Option<Identity>,
          ids: Ids, shim: Shim, s: ArrayState, p: seq<Conn>, c: Call)
    requires NamingOk(m, naming) && IdentOk(ident, naming) && PicksOk(m, c) && KnownAs(ident, ids)
    requires PxAsks(naming, ident, c.verb, c.fqdn, c.hostName, c.volumeName) && Related(naming, ident, shim, s, p)
    ensures var (shim', s', a) := HandleStep(shim, s, true, ids, c);
            var (p', b) := Outcome(p, PlainServe(p, c.verb, c.hostName, c.volumeName), Fate(shim, s, c));
            && Related(naming, ident, shim', s', p') && Exchangeable(shim'.learned)
            && (Agree(a, Said(b)) <==> !(Misread(c) && Fate(shim, s, c) == Served))
    ensures CallOk(m, naming, ident, c) && HostsThere(naming, s)
  {
    PxCallOk(m, naming, ident, c);
    StepRefines(m, naming, ident, ids, shim, s, p, c);
    var (shim', s', a) := HandleStep(shim, s, true, ids, c);
    var p' := Outcome(p, PlainServe(p, c.verb, c.hostName, c.volumeName), Fate(shim, s, c)).0;
    RelatedExchanges(m, naming, ident, shim', s', p');
  }

  /**
   One request to the running shim. `p` is the plain array it stands for, before and after; `fate` tells whether
   the request as a whole was lost. px gets the plain array's answer if and only if it is not a refusal that the
   shim misreads. `wire` are the messages of the request; when they went well, the request was not lost.
   */
  method Answered(rw: Rewriter, verb: Verb, fqdn: string, hostName: string,
          volumeName: string, pxToken: nat, asking: ArraysReply, telling: ArraysReply,
          ghost naming: Naming, ghost ident: Option<Identity>, ghost p: seq<Conn>)
    returns (a: Answer, ghost p': seq<Conn>, ghost fate: Link, ghost c: Call, ghost wire: seq<Event<Request>>)
    requires rw.Valid() && rw.arr != null
    requires NamingOk(rw.byNode, naming) && IdentOk(ident, naming)
    requires PxAsks(naming, ident, verb, fqdn, hostName, volumeName)
    requires Related(naming, ident, rw.State(), rw.upstream.state, p)
    requires rw.Known().None? || rw.Known() == ident
    requires AboutArray(ident, asking) && AboutArray(ident, telling)
    modifies rw, rw.upstream, rw.arr, if rw.ident == null then {} else {rw.ident}
    ensures rw.Valid() && Related(naming, ident, rw.State(), rw.upstream.state, p')
    ensures rw.Known().None? || rw.Known() == ident
    ensures var (after, b) := Outcome(p, PlainServe(p, verb, hostName, volumeName), fate);
            p' == after && (Agree(a, Said(b)) <==> !(Misread(c) && fate == Served))
    ensures rw.upstream.trace == old(rw.upstream.trace) + wire
    ensures WentWell(rw.upstream.net, old(rw.upstream.trace), pxToken, wire) ==> fate == Served
  {
    ghost var shim, s, known := rw.State(), rw.upstream.state, rw.Known();
    ghost var auth, before := rw.arr.auth, rw.upstream.trace;
    ghost var ids, granting, calling;
    a, c, ids, granting, calling := rw.Handle(verb, fqdn, hostName, volumeName, pxToken, asking, telling);
    Together(before, granting, calling);
    wire, fate := granting + calling, Fate(shim, s, c);
    p' := Outcome(p, PlainServe(p, verb, hostName, volumeName), fate).0;
    KnownRight(rw, ident, known, RawQuery(hostName, volumeName), asking, telling, c.link, ids);
    RequestRefines(rw.byNode, naming, ident, ids, shim, s, p, c);
    if WentWell(rw.upstream.net, before, pxToken, wire) {
      WellCarried(rw.byNode, naming, ident, rw.upstream.net, before, pxToken, shim, s, auth, c, ids, granting, calling);
    }
  }

  /** px's realm hosts among the listed items are the ones it uses. */
  ghost predicate ItemsOk(m: NodeMap, naming: Naming, items: seq<Json>) {
    forall i, r :: 0 <= i < |items| && IsResolution(m, NameOf(items[i]), r) ==>
      LessonOk(m, naming, Lesson(NameOf(items[i]), r))
  }

  /** A GET /hosts on its way back teaches names and keeps the relation. */
  method HostsListed(rw: Rewriter, status: int, names: string, text: string, body: Json, ghost naming: Naming,
          ghost ident: Option<Identity>, ghost p: seq<Conn>)
    returns (status': int, out: Json)
    requires rw.Valid() && NamingOk(rw.byNode, naming) && ItemsOk(rw.byNode, naming, ItemsOf(body))
    requires Related(naming, ident, rw.State(), rw.upstream.state, p)
    modifies rw
    ensures rw.granted == old(rw.granted) && old(rw.byArrayHost).Keys <= rw.byArrayHost.Keys
    ensures Related(naming, ident, rw.State(), rw.upstream.state, p)
  {
    ghost var before := rw.State();
    ghost var picks, relearns;
    status', out, picks, relearns := rw.ModifyHostsResponse(status, names, text, body);
    if status == 200 {
      ghost var ls := Lessons(ItemsOf(body), relearns);
      LessonsKeep(rw.byNode, naming, ident, before, rw.upstream.state, p, ls);
      NeverForgotten(before.learned, ls);
    }
  }
}
