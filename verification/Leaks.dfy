/** When px gets to see the name of an array host: in the message of a refusal, and nowhere else. */
module Leaks {
  import opened GoStrings
  import opened Options
  import opened QuotedText
  import opened Config
  import opened Resolve
  import opened ArraySession
  import opened FlashArray
  import opened ArrayIdentity
  import opened Protocol
  import opened Messages
  import opened Query
  import opened Refinement

  /** The text mentions no array host that px has a name for. */
  ghost predicate Quiet(naming: Naming, t: string) { forall k :: k in naming ==> !Contains(t, k) }

  /** The words in which the array and the shim answer, apart from the JSON tokens. */
  const FIXED: set<string> := {NOT_CONNECTED, GRANT_ERROR, CALL_ERROR, UPSTREAM_ERROR}

  ghost predicate QuietNames(naming: Naming) { forall k :: k in naming ==> Quiet(naming, naming[k]) }

  ghost predicate QuietBeside(naming: Naming, cs: seq<Conn>) {
    forall i :: 0 <= i < |cs| ==> Quiet(naming, cs[i].volume) && (cs[i].host in naming || Quiet(naming, cs[i].host))
  }

  /** Array hosts occur in no fixed text, in none of px's names, and in no volume or foreign host. */
  ghost predicate QuietWorld(naming: Naming, s: ArrayState, c: Call) {
    && (forall t :: t in STRUCTURE || t in FIXED ==> Quiet(naming, t))
    && QuietNames(naming) && Quiet(naming, c.volumeName) && QuietBeside(naming, s.conns)
  }

  ghost predicate NamesPlain(naming: Naming) { forall k :: k in naming ==> k != "" && Free(k, QUOTE) }

  lemma NamingPlain(m: NodeMap, naming: Naming)
    requires NamingOk(m, naming)
    ensures NamesPlain(naming)
  {
    forall k | k in naming ensures k != "" && Free(k, QUOTE) { assert NameOk(m, naming, k); }
  }

  ghost predicate QuietPieces(naming: Naming, ps: seq<string>) { forall i :: 0 <= i < |ps| ==> Quiet(naming, ps[i]) }

  lemma QuietText(naming: Naming, ps: seq<string>)
    requires NamesPlain(naming) && |ps| >= 1 && QuietPieces(naming, ps)
    ensures Quiet(naming, Text(ps))
  {
    forall k | k in naming ensures !Contains(Text(ps), k) { ContainsInPiece(ps, k, QUOTE); }
  }

  ghost predicate QuietConns(naming: Naming, cs: seq<Conn>) {
    forall i :: 0 <= i < |cs| ==> Quiet(naming, cs[i].host) && Quiet(naming, cs[i].volume)
  }

  lemma {:induction false} QuietItems(naming: Naming, cs: seq<Conn>, first: bool)
    requires (forall t :: t in STRUCTURE ==> Quiet(naming, t)) && QuietConns(naming, cs)
    ensures QuietPieces(naming, ItemPieces(cs, first))
  {
    if cs == [] {
      assert ItemPieces(cs, first)[0] in STRUCTURE;
    } else {
      QuietItems(naming, cs[1..], false);
      var head := Head(cs[0], first);
      forall i | 0 <= i < 12 ensures Quiet(naming, head[i]) {
        assert i != 5 && i != 11 ==> head[i] in STRUCTURE;
        assert head[5] == cs[0].host && head[11] == cs[0].volume;
      }
    }
  }

  /** A listing of quiet names is quiet. */
  lemma QuietListing(naming: Naming, cs: seq<Conn>)
    requires NamesPlain(naming) && (forall t :: t in STRUCTURE ==> Quiet(naming, t)) && QuietConns(naming, cs)
    ensures Quiet(naming, Render(cs))
  {
    QuietItems(naming, cs, true);
    assert "{" in STRUCTURE && "items" in STRUCTURE;
    QuietText(naming, RenderPieces(cs));
  }

  /** A quiet message makes a quiet error answer, which the quoted rewrite leaves alone. */
  lemma QuietError(naming: Naming, msg: string, k: string, v: string)
    requires NamesPlain(naming) && (forall t :: t in STRUCTURE ==> Quiet(naming, t)) && Quiet(naming, msg)
    ensures Quiet(naming, ErrorBody(msg))
    ensures k in naming ==> ReplaceAll(ErrorBody(msg), Quoted(k), Quoted(v)) == ErrorBody(msg)
  {
    var ps := ErrorPieces(msg);
    forall i | 0 <= i < |ps| ensures Quiet(naming, ps[i]) { assert i != 5 ==> ps[i] in STRUCTURE; }
    QuietText(naming, ps);
    if k in naming { ReplaceAbsentQuoted(ErrorBody(msg), k, v); }
  }

  /** A text that does not mention a name does not hold it quoted either. */
  lemma ReplaceAbsentQuoted(s: string, k: string, v: string)
    requires !Contains(s, k)
    ensures ReplaceAll(s, Quoted(k), Quoted(v)) == s
  {
    if Contains(s, Quoted(k)) {
      assert Quoted(k)[1..|k| + 1] == k;
      assert k <= Quoted(k)[1..];
      ContainsAt(Quoted(k), k, 1);
      ContainsSub(s, Quoted(k), k);
    }
    ReplaceAbsent(s, Quoted(k), Quoted(v));
  }

  lemma NothingQuiet(naming: Naming)
    requires NamesPlain(naming)
    ensures Quiet(naming, "")
  {
    forall k | k in naming ensures !Contains("", k) { ContainsShort("", k); }
  }

  /** An array host's refusal names it, and the quoted rewrite does not reach into the message. */
  lemma RefusalNamesArrayHost(host: string, realm: string, v: string)
    requires Free(host, QUOTE) && Free(realm, QUOTE) && host != "" && host !in STRUCTURE
    ensures ReplaceAll(ErrorBody(NoAccess(host, realm)), Quoted(host), Quoted(v)) == ErrorBody(NoAccess(host, realm))
    ensures Contains(ErrorBody(NoAccess(host, realm)), host)
  {
    var ps := ErrorPieces(NoAccess(host, realm));
    RefusalFree(host, realm);
    RefusalContains(host, realm);
    forall i | 0 <= i < |ps| ensures ps[i] != host { assert i != 5 ==> ps[i] in STRUCTURE; }
    NoPiece(ps, host, v);
    assert Contains(ps[5], host);
    ContainsInPiece(ps, host, QUOTE);
  }

  /** A POST for a volume of another realm that reaches the array, and whose refusal is not misread. */
  predicate RefusalPassedOn(shim: Shim, s: ArrayState, c: Call) {
    && c.verb == Post && c.hostName != "" && WrongRealm(c.hostName, c.volumeName)
    && Fate(shim, s, c) == Served && !Misread(c)
  }

  ghost predicate Mentions(naming: Naming, t: string) { !Quiet(naming, t) }

  lemma GetQuiet(m: NodeMap, naming: Naming, ident: Option<Identity>,
          shim: Shim, s: ArrayState, p: seq<Conn>, c: Call, k: string)
    requires NamingOk(m, naming) && Named(naming, ident, c, k) && Related(naming, ident, shim, s, p)
    requires QuietWorld(naming, s, c)
    requires NamesPlain(naming) && c.verb == Get
    ensures Quiet(naming, Translate(c, k, Answer(200, Render(Listed(s.conns, k, c.volumeName)))).body)
  {
    var cs := Listed(s.conns, k, c.volumeName);
    NamingOneToOne(m, naming);
    OwnListed(naming, ident, shim, s, p, k, c.volumeName);
    TranslatesOwn(m, naming, ident, c, k, cs);
    ListedFrom(s.conns, k, c.volumeName);
    QuietRenamed(naming, s.conns, cs);
    QuietListing(naming, RenameHosts(cs, naming));
  }

  lemma {:induction false} ListedFrom(cs: seq<Conn>, k: string, v: string)
    ensures forall c :: c in Listed(cs, k, v) ==> c in cs
  {
    if cs != [] {
      ListedFrom(cs[1..], k, v);
      assert cs == [cs[0]] + cs[1..];
    }
  }

  lemma QuietRenamed(naming: Naming, all: seq<Conn>, cs: seq<Conn>)
    requires QuietNames(naming) && QuietBeside(naming, all) && forall d :: d in cs ==> d in all
    ensures QuietConns(naming, RenameHosts(cs, naming))
  {
    forall i | 0 <= i < |cs|
      ensures Quiet(naming, RenameHosts(cs, naming)[i].host) && Quiet(naming, RenameHosts(cs, naming)[i].volume)
    {
      assert cs[i] in all;
      var j :| 0 <= j < |all| && all[j] == cs[i];
      if cs[i].host in naming { assert Quiet(naming, naming[cs[i].host]); }
    }
  }

  lemma RemovedQuiet(m: NodeMap, naming: Naming, ident: Option<Identity>, s: ArrayState, c: Call, k: string)
    requires NamingOk(m, naming) && Named(naming, ident, c, k) && QuietWorld(naming, s, c)
    requires NamesPlain(naming) && c.verb == Delete
    ensures Quiet(naming, Translate(c, k, Answer(200, Render([]))).body)
  {
    TranslatesNone(m, naming, ident, c, k);
    QuietListing(naming, []);
  }

  lemma NotConnectedQuiet(naming: Naming, s: ArrayState, c: Call, k: string)
    requires QuietWorld(naming, s, c) && NamesPlain(naming) && c.verb == Delete && k in naming
    ensures Quiet(naming, Translate(c, k, Answer(400, ErrorBody(NOT_CONNECTED))).body)
  {
    assert NOT_CONNECTED in FIXED;
    QuietError(naming, NOT_CONNECTED, k, c.hostName);
  }

  lemma ConnectedQuiet(naming: Naming, s: ArrayState, c: Call)
    requires QuietWorld(naming, s, c) && NamesPlain(naming) && c.hostName in naming.Values
    ensures Quiet(naming, Render([Conn(c.hostName, c.volumeName)]))
  {
    QuietListing(naming, [Conn(c.hostName, c.volumeName)]);
  }

  /** An answer that reads as "already" is replaced by one of the shim's own. */
  lemma AlreadyQuiet(naming: Naming, s: ArrayState, c: Call, k: string, t: string)
    requires QuietWorld(naming, s, c) && NamesPlain(naming) && c.hostName in naming.Values
    requires c.verb == Post && Contains(ToLower(t), "already")
    ensures Quiet(naming, Translate(c, k, Answer(400, t)).body)
  {
    ConnectedQuiet(naming, s, c);
  }

  lemma PostQuiet(m: NodeMap, naming: Naming, ident: Option<Identity>, s: ArrayState, c: Call, k: string)
    requires NamingOk(m, naming) && Named(naming, ident, c, k) && QuietWorld(naming, s, c)
    requires NamesPlain(naming) && c.verb == Post
    ensures Quiet(naming, Translate(c, k, Answer(200, Render([Conn(k, c.volumeName)]))).body)
    ensures Quiet(naming, Translate(c, k, Answer(400, ErrorBody(CONNECTED_BEFORE))).body)
  {
    TranslatesOne(m, naming, ident, c, k);
    ConnectedQuiet(naming, s, c);
    DuplicateSaysAlready();
    AlreadyQuiet(naming, s, c, k, ErrorBody(CONNECTED_BEFORE));
  }

  lemma OwnNameQuiet(naming: Naming, s: ArrayState, c: Call, k: string)
    requires QuietWorld(naming, s, c) && k in naming
    ensures !Contains(naming[k], k)
  {
    assert Quiet(naming, naming[k]);
  }

  lemma RealmFree(volume: string)
    requires Free(volume, QUOTE)
    ensures Free(RealmOf(volume), QUOTE)
  {
  }

  lemma RefusalMentions(naming: Naming, s: ArrayState, c: Call, k: string)
    requires QuietWorld(naming, s, c) && NamesPlain(naming) && k in naming && naming[k] == c.hostName
    requires Free(c.volumeName, QUOTE) && c.verb == Post
    ensures Mentions(naming, Translate(c, k, Answer(400, ErrorBody(NoAccess(k, RealmOf(c.volumeName))))).body)
       <==> !SaysAlready(k, c.volumeName)
  {
    var realm := RealmOf(c.volumeName);
    RefusalBodySaysAlready(k, realm);
    if SaysAlready(k, c.volumeName) {
      AlreadyQuiet(naming, s, c, k, ErrorBody(NoAccess(k, realm)));
    } else {
      OwnNameQuiet(naming, s, c, k);
      RealmFree(c.volumeName);
      RefusalTranslated(c, k, realm);
    }
  }

  /** A refusal that does not read as "already" comes back with the array host in it. */
  lemma RefusalTranslated(c: Call, k: string, realm: string)
    requires Free(k, QUOTE) && Free(realm, QUOTE) && k != "" && !Contains(c.hostName, k)
    requires !Contains(ToLower(ErrorBody(NoAccess(k, realm))), "already")
    ensures Contains(Translate(c, k, Answer(400, ErrorBody(NoAccess(k, realm)))).body, k)
  {
    RefusalKeepsName(k, realm, c.hostName);
  }

  /** The message is one piece between quotes and more than the name, so the name is left over in it. */
  lemma RefusalKeepsName(host: string, realm: string, v: string)
    requires Free(host, QUOTE) && Free(realm, QUOTE) && host != "" && !Contains(v, host)
    ensures Contains(ReplaceAll(ErrorBody(NoAccess(host, realm)), Quoted(host), Quoted(v)), host)
  {
    var ps := ErrorPieces(NoAccess(host, realm));
    RefusalFree(host, realm);
    RefusalContains(host, realm);
    assert Contains(ps[5], host) && !Hit(ps, host, 5);
    LeftoversExactly(ps, host, v);
  }

  lemma RefusalFree(host: string, realm: string)
    requires Free(host, QUOTE) && Free(realm, QUOTE)
    ensures Free(NoAccess(host, realm), QUOTE)
  {
  }

  lemma RefusalContains(host: string, realm: string)
    ensures Contains(NoAccess(host, realm), host) && |NoAccess(host, realm)| > |host|
  {
    var tail := " does not have access to realm " + realm + ".";
    assert NoAccess(host, realm) == "Host " + host + tail;
    ContainsMiddle("Host ", host, tail);
  }

  /** The answer to a POST that was served: a refusal that is passed on names the host, and nothing else does. */
  lemma PostMentions(m: NodeMap, naming: Naming, ident: Option<Identity>, s: ArrayState, c: Call, k: string, a: Answer)
    requires NamingOk(m, naming) && Named(naming, ident, c, k) && QuietWorld(naming, s, c)
    requires NamesPlain(naming) && c.verb == Post
    requires a == if Refuses(s, k, c.volumeName) then Answer(400, ErrorBody(NoAccess(k, RealmOf(c.volumeName))))
                  else if Conn(k, c.volumeName) in s.conns then Answer(400, ErrorBody(CONNECTED_BEFORE))
                  else Answer(200, Render([Conn(k, c.volumeName)]))
    ensures Mentions(naming, Translate(c, k, a).body) <==> Refuses(s, k, c.volumeName) && !SaysAlready(k, c.volumeName)
  {
    if Refuses(s, k, c.volumeName) {
      RefusalMentions(naming, s, c, k);
    } else {
      PostQuiet(m, naming, ident, s, c, k);
    }
  }

  lemma DeleteQuiet(m: NodeMap, naming: Naming, ident: Option<Identity>, s: ArrayState, c: Call, k: string, a: Answer)
    requires NamingOk(m, naming) && Named(naming, ident, c, k) && QuietWorld(naming, s, c)
    requires NamesPlain(naming) && c.verb == Delete
    requires a == Answer(200, Render([])) || a == Answer(400, ErrorBody(NOT_CONNECTED))
    ensures Quiet(naming, Translate(c, k, a).body)
  {
    RemovedQuiet(m, naming, ident, s, c, k);
    NotConnectedQuiet(naming, s, c, k);
  }

  /** What the array says to each verb. */
  lemma ServedTexts(s: ArrayState, k: string, v: string)
    requires k in s.hosts
    ensures Serve(s, Connections(Get, k, v)).1 == Answer(200, Render(Listed(s.conns, k, v)))
    ensures var a := Serve(s, Connections(Delete, k, v)).1;
            a == Answer(200, Render([])) || a == Answer(400, ErrorBody(NOT_CONNECTED))
    ensures Serve(s, Connections(Post, k, v)).1 ==
              if Refuses(s, k, v) then Answer(400, ErrorBody(NoAccess(k, RealmOf(v))))
              else if Conn(k, v) in s.conns then Answer(400, ErrorBody(CONNECTED_BEFORE))
              else Answer(200, Render([Conn(k, v)]))
  {
  }

  /** What the call on the array host says, once it is served. */
  lemma ServedMentions(m: NodeMap, naming: Naming, ident: Option<Identity>, shim: Shim, s: ArrayState, p: seq<Conn>,
          c: Call, k: string, a: Answer)
    requires NamingOk(m, naming) && Named(naming, ident, c, k) && Related(naming, ident, shim, s, p)
    requires QuietWorld(naming, s, c) && NamesPlain(naming) && k in s.hosts
    requires a == Serve(s, Connections(c.verb, k, c.volumeName)).1
    ensures Mentions(naming, Translate(c, k, a).body) <==>
              c.verb == Post && Refuses(s, k, c.volumeName) && !SaysAlready(k, c.volumeName)
  {
    ServedTexts(s, k, c.volumeName);
    match c.verb
    case Get => GetQuiet(m, naming, ident, shim, s, p, c, k);
    case Delete => DeleteQuiet(m, naming, ident, s, c, k, a);
    case Post => PostMentions(m, naming, ident, s, c, k, a);
  }

  /** An empty answer stays empty on its way back. */
  lemma NothingRewritten(learned: map<string, string>, known: Option<Identity>, fqdn: string)
    ensures MapText(learned, IdentText(known, fqdn, "")) == ""
  {
    assert MapBack([""], learned) == [""];
  }

  /** The answer to a forwarded listing: an error of the shim, nothing, or what the array said, on its way back. */
  lemma ListAnswer(learned: map<string, string>, s: ArrayState, told: Option<Identity>, c: Call,
          served: (ArrayState, Answer), body: string)
    requires var (s', a) := Outcome(s, served, c.link);
             body == if a.None? then UPSTREAM_ERROR else MapText(learned, IdentText(told, c.fqdn, a.value.body))
    ensures body == UPSTREAM_ERROR || body == "" || body == MapText(learned, IdentText(told, c.fqdn, served.1.body))
  {
    NothingRewritten(learned, told, c.fqdn);
  }

  /** A listing by volume never names an array host of px's. */
  lemma ListQuiet(m: NodeMap, naming: Naming, ident: Option<Identity>,
          ids: Ids, shim: Shim, s: ArrayState, p: seq<Conn>, c: Call)
    requires NamingOk(m, naming) && IdentOk(ident, naming) && CallOk(m, naming, ident, c)
    requires Related(naming, ident, shim, s, p)
    requires KnownAs(ident, ids) && QuietWorld(naming, s, c) && NamesPlain(naming) && c.hostName == ""
    ensures Quiet(naming, HandleStep(shim, s, true, ids, c).2.body)
  {
    var served := Serve(s, Connections(Get, "", c.volumeName));
    CleanForwards(ids.asked, c.fqdn, "", c.volumeName);
    PassesThrough(shim, s, ids, c, served);
    ListAnswer(shim.learned, s, ids.told, c, served, HandleStep(shim, s, true, ids, c).2.body);
    ListRefines(m, naming, ident, ids.told, shim, s, p, c);
    QuietPlain(m, naming, ident, shim, s, p, c);
    NothingQuiet(naming);
    assert UPSTREAM_ERROR in FIXED;
  }

  lemma QuietPlain(m: NodeMap, naming: Naming, ident: Option<Identity>,
          shim: Shim, s: ArrayState, p: seq<Conn>, c: Call)
    requires NamingOk(m, naming) && Related(naming, ident, shim, s, p) && QuietWorld(naming, s, c) && NamesPlain(naming)
    ensures Quiet(naming, Render(Listed(p, "", c.volumeName)))
  {
    NamingOneToOne(m, naming);
    assert forall i :: 0 <= i < |s.conns| ==> ConnOk(naming, ident, shim.learned, s.conns[i]);
    QuietListed(naming, s.conns, c.volumeName);
  }

  lemma QuietListed(naming: Naming, cs: seq<Conn>, v: string)
    requires OneToOne(naming) && HostsKnown(naming, cs) && NamesPlain(naming) && QuietNames(naming)
    requires QuietBeside(naming, cs)
    requires forall t :: t in STRUCTURE ==> Quiet(naming, t)
    ensures Quiet(naming, Render(Listed(RenameHosts(cs, naming), "", v)))
  {
    ListedRenamed(naming, cs, "", v);
    QuietRenamed(naming, cs, Listed(cs, "", v));
    QuietListing(naming, Listed(RenameHosts(cs, naming), "", v));
  }

  /** The answer to a request that names a host: an error of the shim, nothing, or the translated answer. */
  lemma HostAnswer(shim: Shim, s: ArrayState, ids: Ids, c: Call, k: string)
    requires c.hostName != "" && IsRealmHost(c.hostName) && c.pick.Some? && c.pick.value.arrayHost == k
    ensures var (g, s1, ok) := GrantFirst(shim.granted, s, c, k);
            var body := HandleStep(shim, s, true, ids, c).2.body;
            if !ok then body == GRANT_FAILED.body && Fate(shim, s, c) != Served
            else if c.link == Served then
              && body == Translate(c, k, Serve(s1, Connections(c.verb, k, c.volumeName)).1).body
              && Fate(shim, s, c) == Served
            else (body == CALL_FAILED.body || body == "") && Fate(shim, s, c) != Served
  {
    HandledOnHost(shim, s, ids, c, k);
    assert ReplaceAll("", Quoted(k), Quoted(c.hostName)) == "";
  }

  /** Once learning and granting are done: the translated answer names a host exactly when it passes on a refusal. */
  lemma GrantedMentions(m: NodeMap, naming: Naming, ident: Option<Identity>,
          shim: Shim, s: ArrayState, p: seq<Conn>, c: Call, k: string)
    requires NamingOk(m, naming) && Named(naming, ident, c, k) && Related(naming, ident, shim, s, p)
    requires QuietWorld(naming, s, c)
    requires NamesPlain(naming) && (c.verb == Post ==> (k, RealmOf(c.hostName)) in s.grants)
    ensures var a := Serve(s, Connections(c.verb, k, c.volumeName)).1;
            Mentions(naming, Translate(c, k, a).body) <==>
              c.verb == Post && WrongRealm(c.hostName, c.volumeName) && !Misread(c)
  {
    ServedMentions(m, naming, ident, shim, s, p, c, k, Serve(s, Connections(c.verb, k, c.volumeName)).1);
    if c.verb == Post { RefusesExactly(m, naming, ident, shim, s, p, k, c.volumeName); }
  }

  lemma HostQuietExactly(m: NodeMap, naming: Naming, ident: Option<Identity>,
          ids: Ids, shim: Shim, s: ArrayState, p: seq<Conn>, c: Call)
    requires NamingOk(m, naming) && CallOk(m, naming, ident, c) && Related(naming, ident, shim, s, p)
    requires QuietWorld(naming, s, c) && NamesPlain(naming) && c.hostName != ""
    ensures Mentions(naming, HandleStep(shim, s, true, ids, c).2.body) <==> RefusalPassedOn(shim, s, c)
  {
    var k := c.pick.value.arrayHost;
    var (g, s1, ok) := GrantFirst(shim.granted, s, c, k);
    PrepareRefines(m, naming, ident, shim, s, p, c);
    PxNameIsRealmHost(m, naming, k);
    HostAnswer(shim, s, ids, c, k);
    ErrorsQuiet(naming, s, c);
    if ok {
      var next := Shim(Learn(shim.learned, c.hostName, c.relearn), g);
      GrantKeeps(naming, shim.granted, s, k, c.grantLink);
      GrantedMentions(m, naming, ident, next, s1, p, c, k);
    }
  }

  lemma ErrorsQuiet(naming: Naming, s: ArrayState, c: Call)
    requires QuietWorld(naming, s, c) && NamesPlain(naming)
    ensures Quiet(naming, GRANT_FAILED.body) && Quiet(naming, CALL_FAILED.body) && Quiet(naming, "")
  {
    assert GRANT_ERROR in FIXED && CALL_ERROR in FIXED;
    QuietError(naming, GRANT_ERROR, "", "");
    QuietError(naming, CALL_ERROR, "", "");
    NothingQuiet(naming);
  }

  /**
   Over all requests: px gets to see the name of one of its array hosts if and only if it posts a connection to a
   volume of another realm, the POST reaches the array, and neither name says "already".
   */
  lemma MentionsExactly(m: NodeMap, naming: Naming, ident: Option<Identity>,
          ids: Ids, shim: Shim, s: ArrayState, p: seq<Conn>, c: Call)
    requires NamingOk(m, naming) && IdentOk(ident, naming) && CallOk(m, naming, ident, c)
    requires Related(naming, ident, shim, s, p)
    requires KnownAs(ident, ids) && QuietWorld(naming, s, c)
    ensures Mentions(naming, HandleStep(shim, s, true, ids, c).2.body) <==> RefusalPassedOn(shim, s, c)
  {
    NamingPlain(m, naming);
    if c.hostName == "" {
      ListQuiet(m, naming, ident, ids, shim, s, p, c);
    } else {
      HostQuietExactly(m, naming, ident, ids, shim, s, p, c);
    }
  }

  /** Untouched, when the name is no JSON token. */
  lemma RefusalUntouched(c: Call, k: string, volume: string)
    requires k != "" && k !in STRUCTURE && Free(k, QUOTE) && Free(volume, QUOTE) && !SaysAlready(k, volume)
    ensures var a := Answer(400, ErrorBody(NoAccess(k, RealmOf(volume))));
            Translate(c, k, a) == a && Contains(a.body, k)
  {
    RefusalBodySaysAlready(k, RealmOf(volume));
    RefusalNamesArrayHost(k, RealmOf(volume), c.hostName);
  }

  /** A first POST of px's host for a volume of another realm is answered with the array host's name. */
  lemma OtherRealmLeaks(h: HostMapping, name: string, volume: string, fqdn: string, ids: Ids)
    requires h.arrayHost != "" && h.arrayHost !in STRUCTURE && Free(h.arrayHost, QUOTE) && !IsRealmHost(h.arrayHost)
    requires IsRealmHost(name) && RealmOf(name) != "" && Free(volume, QUOTE) && WrongRealm(name, volume)
    requires !SaysAlready(h.arrayHost, volume)
    ensures var c := Call(Post, fqdn, name, volume, Some(h), Some(h), Served, Served);
            var s := ArrayState({h.arrayHost}, {RealmOf(name)}, {}, []);
            var a := HandleStep(Shim(map[], {}), s, true, ids, c).2;
            a == Answer(400, ErrorBody(NoAccess(h.arrayHost, RealmOf(volume)))) && Contains(a.body, h.arrayHost)
  {
    var k := h.arrayHost;
    var c := Call(Post, fqdn, name, volume, Some(h), Some(h), Served, Served);
    var s := ArrayState({k}, {RealmOf(name)}, {}, []);
    FirstGrant(s, k, RealmOf(name));
    HandledOnHost(Shim(map[], {}), s, ids, c, k);
    FirstRefused(s.(grants := {(k, RealmOf(name))}), k, volume);
    RefusalUntouched(c, k, volume);
  }

  lemma FirstRefused(s: ArrayState, k: string, volume: string)
    requires k in s.hosts && Refuses(s, k, volume)
    ensures Serve(s, Connections(Post, k, volume)) == (s, Answer(400, ErrorBody(NoAccess(k, RealmOf(volume)))))
  {
  }

  lemma FirstGrant(s: ArrayState, k: string, realm: string)
    requires k in s.hosts && realm in s.realms && (k, realm) !in s.grants && k != "" && realm != ""
    ensures var (g, t, ok) := GrantStep({}, s, k, realm, Served); ok && t == s.(grants := s.grants + {(k, realm)})
  {
  }

  /** For one: host "r::n-1" of node "n", whose array host is "arr", and volume "q::v". */
  lemma LeakWitness(fqdn: string, ids: Ids)
    ensures var h := HostMapping("n", "arr", "", "", "", "");
            var c := Call(Post, fqdn, "r::n-1", "q::v", Some(h), Some(h), Served, Served);
            var s := ArrayState({"arr"}, {"r"}, {}, []);
            PicksOk(map["n" := h], c) && Contains(HandleStep(Shim(map[], {}), s, true, ids, c).2.body, "arr")
  {
    var h := HostMapping("n", "arr", "", "", "", "");
    WitnessNames();
    WitnessHost();
    WitnessPick(h);
    OtherRealmLeaks(h, "r::n-1", "q::v", fqdn, ids);
  }

  lemma WitnessPick(h: HostMapping)
    requires h.node == "n" && IsRealmHost("r::n-1") && AfterRealm("r::n-1") == "n-1" && "n" + "-" <= "n-1"
    ensures IsResolution(map["n" := h], "r::n-1", Some(h))
  {
    assert Matches(h, "n-1");
  }

  lemma WitnessHost()
    ensures "arr" !in STRUCTURE && Free("arr", QUOTE) && Free("q::v", QUOTE)
  {
  }

  lemma WitnessNames()
    ensures IsRealmHost("r::n-1") && RealmOf("r::n-1") == "r" && AfterRealm("r::n-1") == "n-1" && "n" + "-" <= "n-1"
    ensures IsRealmHost("q::v") && RealmOf("q::v") == "q" && !IsRealmHost("arr") && !SaysAlready("arr", "q::v")
  {
    assert "r::n-1" == "r" + "::" + "n-1" && "q::v" == "q" + "::" + "v";
    FirstSeparator("r", "n-1");
    FirstSeparator("q", "v");
    ContainsShort(ToLower("arr"), "already");
    ContainsShort(ToLower("q"), "already");
    if Contains("arr", "::") {
      assert "::"[0] == ':';
      ContainsChar("arr", "::", ':');
    }
  }
}
