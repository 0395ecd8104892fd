/**
 The shim and the real array together are a plain array on which px's realm hosts are ordinary hosts:
 the same answers over every run, with the real array's connections as the image of the plain ones.
 */
module Refinement {
  import opened GoStrings
  import opened Options
  import opened QuotedText
  import opened Resolve
  import opened ArraySession
  import opened FlashArray
  import opened ArrayIdentity
  import opened Protocol
  import opened Learning
  import opened Messages
  import opened Query

  predicate WrongRealm(host: string, volume: string) { IsRealmHost(volume) && RealmOf(volume) != RealmOf(host) }

  /** The plain array: it stores (realm host, volume) pairs, and a repeated POST is a success. */
  function PlainServe(p: seq<Conn>, verb: Verb, host: string, volume: string): (seq<Conn>, Answer) {
    var c := Conn(host, volume);
    match verb
    case Get => (p, Answer(200, Render(Listed(p, host, volume))))
    case Post =>
      if WrongRealm(host, volume) then (p, Answer(400, ""))
      else (if c in p then p else p + [c], Answer(200, Render([c])))
    case Delete =>
      if c in p then (Without(p, c), Answer(200, Render([]))) else (p, Answer(400, ""))
  }

  /** The one name px uses for each array host during a run. */
  type Naming = map<string, string>

  ghost predicate NameOk(m: NodeMap, naming: Naming, k: string)
    requires k in naming
  {
    && k != "" && k !in STRUCTURE && Free(k, QUOTE) && Free(k, NUL) && !IsRealmHost(k)
    && Free(naming[k], QUOTE) && IsRealmHost(naming[k]) && RealmOf(naming[k]) != "" && AfterRealm(naming[k]) != k
    && exists n :: n in m && m[n].arrayHost == k && Matches(m[n], AfterRealm(naming[k]))
  }

  ghost predicate NamingOk(m: NodeMap, naming: Naming) {
    ByNode(m) && Unambiguous(m) && forall k :: k in naming ==> NameOk(m, naming, k)
  }

  /** Token `t` is none of the values the identity rewrite exchanges. */
  predicate NotIdent(ident: Option<Identity>, t: string) {
    ident.Some? ==> t != ident.value.id && t != ident.value.name
  }

  ghost predicate IdentOk(ident: Option<Identity>, naming: Naming) {
    && (ident.Some? ==> Free(ident.value.id, QUOTE) && Free(ident.value.name, QUOTE))
    && (forall t :: t in STRUCTURE || t in naming ==> NotIdent(ident, t))
  }

  predicate VolumeOk(naming: Naming, ident: Option<Identity>, v: string) {
    Free(v, QUOTE) && v !in naming && NotIdent(ident, v)
  }

  /** One of the two names in a refusal says "already". */
  predicate SaysAlready(k: string, volume: string) {
    Contains(ToLower(k), "already") || Contains(ToLower(RealmOf(volume)), "already")
  }

  /** A POST the array refuses, in words that the shim takes for a duplicate. */
  predicate Misread(c: Call) {
    && c.verb == Post && c.pick.Some?
    && WrongRealm(c.hostName, c.volumeName) && SaysAlready(c.pick.value.arrayHost, c.volumeName)
  }

  /** px lists by volume without a host, in a query without synthetic values, or names the host it always names. */
  ghost predicate CallOk(m: NodeMap, naming: Naming, ident: Option<Identity>, c: Call) {
    && PicksOk(m, c)
    && VolumeOk(naming, ident, c.volumeName)
    && (c.hostName == "" ==> c.verb == Get && QueryClean(ident, c.fqdn, "", c.volumeName))
    && (c.hostName != "" ==>
          c.pick.Some? && c.pick.value.arrayHost in naming && naming[c.pick.value.arrayHost] == c.hostName)
  }

  ghost predicate GrantsHeld(granted: set<string>, grants: set<(string, string)>) {
    forall h, r :: Free(h, NUL) && GrantKey(h, r) in granted ==> (h, r) in grants
  }

  /** A host of the array that is not px's, and that px has no name for. */
  predicate Foreign(naming: Naming, ident: Option<Identity>, h: string) {
    h !in naming && Free(h, QUOTE) && NotIdent(ident, h) && forall k :: k in naming ==> naming[k] != h
  }

  predicate ConnOk(naming: Naming, ident: Option<Identity>, learned: map<string, string>, c: Conn) {
    (c.host in learned || Foreign(naming, ident, c.host)) && VolumeOk(naming, ident, c.volume)
  }

  /** The array has px's hosts and realms. */
  predicate HostsThere(naming: Naming, s: ArrayState) {
    naming.Keys <= s.hosts && forall k :: k in naming ==> RealmOf(naming[k]) in s.realms
  }

  /** The relation between the shim with the real array, and the plain array. Hosts of others are on both. */
  ghost predicate Related(naming: Naming, ident: Option<Identity>, shim: Shim, s: ArrayState, p: seq<Conn>) {
    && HostsThere(naming, s)
    && (forall k :: k in shim.learned ==> k in naming && shim.learned[k] == naming[k])
    && (forall i :: 0 <= i < |s.conns| ==> ConnOk(naming, ident, shim.learned, s.conns[i]))
    && p == RenameHosts(s.conns, naming)
    && GrantsHeld(shim.granted, s.grants)
    && (forall h, r :: (h, r) in s.grants && h in naming ==> r == RealmOf(naming[h]))
  }

  /** Same status, and the same text whenever the request succeeded. */
  predicate Agree(a: Answer, b: Answer) { a.status == b.status && (a.status == 200 ==> a.body == b.body) }

  function Said(a: Option<Answer>): Answer { if a.None? then Answer(502, "") else a.value }

  /** How the request as a whole ended: a failed grant call is a request that was not carried out. */
  function Fate(shim: Shim, s: ArrayState, c: Call): Link {
    if c.verb == Post && c.pick.Some?
       && !GrantStep(shim.granted, s, c.pick.value.arrayHost, RealmOf(c.hostName), c.grantLink).2
    then LostBefore else c.link
  }

  lemma {:induction false} KeyInjective(h: string, r: string, h': string, r': string)
    requires Free(h, NUL) && Free(h', NUL) && GrantKey(h, r) == GrantKey(h', r')
    ensures h == h' && r == r'
  {
    SplitPrefix(h, r, NUL);
    SplitPrefix(h', r', NUL);
    JoinSplit(r, NUL);
    JoinSplit(r', NUL);
    assert Split(GrantKey(h, r), NUL)[1..] == Split(r, NUL);
    assert Split(GrantKey(h', r'), NUL)[1..] == Split(r', NUL);
  }

  /** px's names tell the array hosts apart. */
  lemma NamingInjective(m: NodeMap, naming: Naming, k: string, j: string)
    requires NamingOk(m, naming) && k in naming && j in naming && naming[k] == naming[j]
    ensures k == j
  {
    assert NameOk(m, naming, k) && NameOk(m, naming, j);
    var a :| a in m && m[a].arrayHost == k && Matches(m[a], AfterRealm(naming[k]));
    var b :| b in m && m[b].arrayHost == j && Matches(m[b], AfterRealm(naming[j]));
    UniqueMatch(m, a, b, AfterRealm(naming[k]));
  }

  /** Different array hosts have different names, and every name is one. */
  ghost predicate OneToOne(naming: Naming) {
    && (forall k, j :: k in naming && j in naming && naming[k] == naming[j] ==> k == j)
    && (forall k :: k in naming ==> k != "" && naming[k] != "")
  }

  lemma NamingOneToOne(m: NodeMap, naming: Naming)
    requires NamingOk(m, naming)
    ensures OneToOne(naming)
  {
    forall k, j | k in naming && j in naming && naming[k] == naming[j] ensures k == j {
      NamingInjective(m, naming, k, j);
    }
    forall k | k in naming ensures k != "" && naming[k] != "" { assert NameOk(m, naming, k); }
  }

  /** The host is px's, or has a name that px uses for no other. */
  predicate KnownHost(naming: Naming, h: string) { h in naming || forall k :: k in naming ==> naming[k] != h }

  predicate HostsKnown(naming: Naming, cs: seq<Conn>) { forall i :: 0 <= i < |cs| ==> KnownHost(naming, cs[i].host) }

  lemma ShownApart(naming: Naming, c: Conn, k: string)
    requires OneToOne(naming) && KnownHost(naming, c.host) && k in naming
    ensures RenameHosts([c], naming) == [Conn(if c.host in naming then naming[c.host] else c.host, c.volume)]
    ensures RenameHosts([c], naming)[0].host == naming[k] <==> c.host == k
  {
  }

  lemma {:induction false} ListedRenamed(naming: Naming, cs: seq<Conn>, k: string, v: string)
    requires OneToOne(naming) && HostsKnown(naming, cs) && (k == "" || k in naming)
    ensures RenameHosts(Listed(cs, k, v), naming)
         == Listed(RenameHosts(cs, naming), if k == "" then "" else naming[k], v)
    ensures forall c :: c in Listed(cs, k, v) ==> c in cs && (k == "" || c.host == k)
  {
    if cs != [] {
      ListedRenamed(naming, cs[1..], k, v);
      RenameCons(cs, naming);
      if k != "" { ShownApart(naming, cs[0], k); }
      var keep := if (k == "" || cs[0].host == k) && (v == "" || cs[0].volume == v) then [cs[0]] else [];
      RenameAppend(keep, Listed(cs[1..], k, v), naming);
    }
  }

  lemma {:induction false} WithoutRenamed(naming: Naming, cs: seq<Conn>, k: string, v: string)
    requires OneToOne(naming) && HostsKnown(naming, cs) && k in naming
    ensures RenameHosts(Without(cs, Conn(k, v)), naming) == Without(RenameHosts(cs, naming), Conn(naming[k], v))
    ensures Conn(k, v) in cs <==> Conn(naming[k], v) in RenameHosts(cs, naming)
    ensures forall c :: c in Without(cs, Conn(k, v)) ==> c in cs
  {
    if cs != [] {
      WithoutRenamed(naming, cs[1..], k, v);
      RenameCons(cs, naming);
      ShownApart(naming, cs[0], k);
      var keep := if cs[0] == Conn(k, v) then [] else [cs[0]];
      RenameAppend(keep, Without(cs[1..], Conn(k, v)), naming);
    }
  }

  lemma RenameAppend(a: seq<Conn>, b: seq<Conn>, naming: Naming)
    ensures RenameHosts(a + b, naming) == RenameHosts(a, naming) + RenameHosts(b, naming)
  {
  }

  lemma RenameCons(cs: seq<Conn>, naming: Naming)
    requires cs != []
    ensures RenameHosts(cs, naming)[1..] == RenameHosts(cs[1..], naming)
    ensures RenameHosts(cs, naming) == [RenameHosts(cs, naming)[0]] + RenameHosts(cs[1..], naming)
    ensures cs == [cs[0]] + cs[1..]
  {
  }

  lemma RenameSame(cs: seq<Conn>, m: map<string, string>, n: map<string, string>)
    requires forall i :: 0 <= i < |cs| ==>
               (cs[i].host in m <==> cs[i].host in n) && (cs[i].host in m ==> m[cs[i].host] == n[cs[i].host])
    ensures RenameHosts(cs, m) == RenameHosts(cs, n)
  {
  }

  /** `connection` turns the array host of its own request back into px's name, item by item. */
  lemma OwnListing(naming: Naming, cs: seq<Conn>, k: string)
    requires k in naming && k !in STRUCTURE && Free(k, QUOTE) && NamesFree(cs)
    requires forall i :: 0 <= i < |cs| ==> cs[i].host == k && cs[i].volume != k
    ensures ReplaceAll(Render(cs), Quoted(k), Quoted(naming[k])) == Render(RenameHosts(cs, naming))
  {
    OneName(Render(cs), k, naming[k]);
    MapBackRender(cs, map[k := naming[k]]);
    RenameSame(cs, map[k := naming[k]], naming);
  }

  /** A body whose quoted tokens are neither the array's id nor its name passes the identity rewrite unchanged. */
  lemma IdentTransparent(ident: Option<Identity>, fqdn: string, ps: seq<string>)
    requires |ps| >= 1 && AllFree(ps, QUOTE) && forall i :: 0 <= i < |ps| ==> NotIdent(ident, ps[i])
    requires ident.Some? ==> Free(ident.value.id, QUOTE) && Free(ident.value.name, QUOTE)
    ensures IdentText(ident, fqdn, Text(ps)) == Text(ps)
  {
    if ident.Some? {
      var syn := Synth(ident.value, fqdn);
      NoPiece(ps, ident.value.id, syn.id);
      NoPiece(ps, ident.value.name, syn.name);
    }
  }

  lemma NoPiece(ps: seq<string>, k: string, v: string)
    requires |ps| >= 1 && AllFree(ps, QUOTE) && Free(k, QUOTE) && forall i :: 0 <= i < |ps| ==> ps[i] != k
    ensures ReplaceAll(Text(ps), Quoted(k), Quoted(v)) == Text(ps)
  {
    QuotedReplace(ps, k, v);
    PieceReplaceAt(ps, k, v, 0);
    forall i | 0 <= i < |ps| ensures PieceReplace(ps, k, v)[i] == ps[i] { PieceReplaceAt(ps, k, v, i); }
    assert PieceReplace(ps, k, v) == ps;
  }

  lemma {:induction false} ItemsNotIdent(ident: Option<Identity>, cs: seq<Conn>, first: bool)
    requires forall t :: t in STRUCTURE ==> NotIdent(ident, t)
    requires forall i :: 0 <= i < |cs| ==> NotIdent(ident, cs[i].host) && NotIdent(ident, cs[i].volume)
    ensures forall i :: 0 <= i < |ItemPieces(cs, first)| ==> NotIdent(ident, ItemPieces(cs, first)[i])
  {
    if cs == [] {
      assert ItemPieces(cs, first)[0] in STRUCTURE;
    } else {
      ItemsNotIdent(ident, cs[1..], false);
      var head := Head(cs[0], first);
      forall i | 0 <= i < 12 ensures NotIdent(ident, head[i]) {
        assert i != 5 && i != 11 ==> head[i] in STRUCTURE;
        assert head[5] == cs[0].host && head[11] == cs[0].volume;
      }
    }
  }

  /** A listing filtered by volume, on its way back to px. */
  lemma VolumeListing(m: NodeMap, naming: Naming, ident: Option<Identity>,
          fqdn: string, learned: map<string, string>, cs: seq<Conn>)
    requires NamingOk(m, naming) && IdentOk(ident, naming)
    requires forall k :: k in learned ==> k in naming && learned[k] == naming[k]
    requires forall i :: 0 <= i < |cs| ==> ConnOk(naming, ident, learned, cs[i])
    ensures MapText(learned, IdentText(ident, fqdn, Render(cs))) == Render(RenameHosts(cs, naming))
  {
    forall k | k in naming ensures Free(k, QUOTE) && k !in STRUCTURE && NotIdent(ident, k) {
      assert NameOk(m, naming, k);
    }
    forall i | 0 <= i < |cs| ensures Free(cs[i].host, QUOTE) && Free(cs[i].volume, QUOTE) && cs[i].volume !in learned {
      assert ConnOk(naming, ident, learned, cs[i]);
    }
    ItemsFree(cs, true);
    ItemsNotIdent(ident, cs, true);
    IdentTransparent(ident, fqdn, RenderPieces(cs));
    MapBackRender(cs, learned);
    RenameSame(cs, learned, naming);
  }

  lemma AppendRenamed(cs: seq<Conn>, c: Conn, naming: Naming)
    requires c.host in naming
    ensures RenameHosts(cs + [c], naming) == RenameHosts(cs, naming) + [Conn(naming[c.host], c.volume)]
  {
  }

  /** What the learning step leaves for a well-named call. */
  lemma LearnsItsName(m: NodeMap, naming: Naming, ident: Option<Identity>, learned: map<string, string>, c: Call)
    requires NamingOk(m, naming) && CallOk(m, naming, ident, c) && c.hostName != ""
    ensures var k := c.pick.value.arrayHost;
            NameOk(m, naming, k) && Learn(learned, c.hostName, c.relearn) == learned[k := c.hostName]
  {
    assert NameOk(m, naming, c.pick.value.arrayHost);
    DeterministicExactly(m);
  }

  lemma GrantKeeps(naming: Naming, granted: set<string>, s: ArrayState, k: string, link: Link)
    requires k in naming && k in s.hosts && RealmOf(naming[k]) in s.realms && k != "" && Free(k, NUL)
    requires RealmOf(naming[k]) != ""
    requires GrantsHeld(granted, s.grants)
    requires forall h, r :: (h, r) in s.grants && h in naming ==> r == RealmOf(naming[h])
    ensures var (g, s', ok) := GrantStep(granted, s, k, RealmOf(naming[k]), link);
            && s' == s.(grants := s'.grants) && GrantsHeld(g, s'.grants)
            && (forall h, r :: (h, r) in s'.grants && h in naming ==> r == RealmOf(naming[h]))
            && (ok ==> (k, RealmOf(naming[k])) in s'.grants)
  {
    var realm := RealmOf(naming[k]);
    var (g, s', ok) := GrantStep(granted, s, k, realm, link);
    assert s.grants <= s'.grants <= s.grants + {(k, realm)};
    forall h, r | Free(h, NUL) && GrantKey(h, r) in g ensures (h, r) in s'.grants {
      if GrantKey(h, r) !in granted {
        KeyInjective(h, r, k, realm);
      }
    }
  }

  lemma ListedFree(m: NodeMap, naming: Naming, ident: Option<Identity>, cs: seq<Conn>)
    requires NamingOk(m, naming)
    requires forall i :: 0 <= i < |cs| ==> cs[i].host in naming && VolumeOk(naming, ident, cs[i].volume)
    ensures NamesFree(cs)
  {
    forall i | 0 <= i < |cs| ensures Free(cs[i].host, QUOTE) { assert NameOk(m, naming, cs[i].host); }
  }

  /** A request on the array host `k` under px's one name for it. */
  predicate Named(naming: Naming, ident: Option<Identity>, c: Call, k: string) {
    && c.pick.Some? && c.pick.value.arrayHost == k && k in naming && naming[k] == c.hostName
    && VolumeOk(naming, ident, c.volumeName)
  }

  /** Related states, and the answer px gets agrees with the plain array's unless it is misread. */
  ghost predicate Refines(naming: Naming, ident: Option<Identity>, shim: Shim, c: Call, k: string,
          served: (ArrayState, Answer), plain: (seq<Conn>, Answer), misread: bool)
  {
    Related(naming, ident, shim, served.0, plain.0) && (Agree(Translate(c, k, served.1), plain.1) <==> !misread)
  }

  /** The three calls on a host: whatever texts the array puts into its errors, related states stay related and
      the translated answers agree. */
  lemma GetRefines(m: NodeMap, naming: Naming, ident: Option<Identity>,
          shim: Shim, s: ArrayState, p: seq<Conn>, c: Call, k: string)
    requires NamingOk(m, naming) && Named(naming, ident, c, k) && Related(naming, ident, shim, s, p) && c.verb == Get
    ensures Refines(naming, ident, shim, c, k, (s, Answer(200, Render(Listed(s.conns, k, c.volumeName)))),
                    (p, Answer(200, Render(Listed(p, c.hostName, c.volumeName)))), false)
  {
    NamingOneToOne(m, naming);
    OwnListed(naming, ident, shim, s, p, k, c.volumeName);
    TranslatesOwn(m, naming, ident, c, k, Listed(s.conns, k, c.volumeName));
  }

  lemma OwnListed(naming: Naming, ident: Option<Identity>, shim: Shim,
          s: ArrayState, p: seq<Conn>, k: string, v: string)
    requires OneToOne(naming) && Related(naming, ident, shim, s, p) && k in naming
    ensures var cs := Listed(s.conns, k, v);
            && RenameHosts(cs, naming) == Listed(p, naming[k], v)
            && forall i :: 0 <= i < |cs| ==> cs[i].host == k && VolumeOk(naming, ident, cs[i].volume)
  {
    ListedRenamed(naming, s.conns, k, v);
    var cs := Listed(s.conns, k, v);
    forall i | 0 <= i < |cs| ensures cs[i].host == k && VolumeOk(naming, ident, cs[i].volume) {
      assert cs[i] in cs;
    }
  }

  /** A listing of one array host's connections comes back under px's name. */
  lemma TranslatesOwn(m: NodeMap, naming: Naming, ident: Option<Identity>, c: Call, k: string, cs: seq<Conn>)
    requires NamingOk(m, naming) && Named(naming, ident, c, k)
    requires forall i :: 0 <= i < |cs| ==> cs[i].host == k && VolumeOk(naming, ident, cs[i].volume)
    ensures Translate(c, k, Answer(200, Render(cs))) == Answer(200, Render(RenameHosts(cs, naming)))
  {
    assert NameOk(m, naming, k);
    ListedFree(m, naming, ident, cs);
    OwnListing(naming, cs, k);
  }

  lemma RelatedPost(naming: Naming, ident: Option<Identity>, shim: Shim,
          s: ArrayState, p: seq<Conn>, k: string, v: string)
    requires Related(naming, ident, shim, s, p) && k in shim.learned && VolumeOk(naming, ident, v)
    ensures Related(naming, ident, shim, s.(conns := s.conns + [Conn(k, v)]), p + [Conn(naming[k], v)])
  {
    AppendRenamed(s.conns, Conn(k, v), naming);
  }

  lemma RelatedWithout(naming: Naming, ident: Option<Identity>,
          shim: Shim, s: ArrayState, p: seq<Conn>, k: string, v: string)
    requires OneToOne(naming) && Related(naming, ident, shim, s, p) && k in naming
    ensures Related(naming, ident, shim, s.(conns := Without(s.conns, Conn(k, v))), Without(p, Conn(naming[k], v)))
    ensures Conn(k, v) in s.conns <==> Conn(naming[k], v) in p
  {
    WithoutRenamed(naming, s.conns, k, v);
    var cs := Without(s.conns, Conn(k, v));
    forall i | 0 <= i < |cs| ensures ConnOk(naming, ident, shim.learned, cs[i]) {
      assert cs[i] in s.conns;
    }
  }

  lemma TranslatesOne(m: NodeMap, naming: Naming, ident: Option<Identity>, c: Call, k: string)
    requires NamingOk(m, naming) && Named(naming, ident, c, k)
    ensures Translate(c, k, Answer(200, Render([Conn(k, c.volumeName)])))
         == Answer(200, Render([Conn(c.hostName, c.volumeName)]))
  {
    var one := [Conn(k, c.volumeName)];
    TranslatesOwn(m, naming, ident, c, k, one);
    assert RenameHosts(one, naming) == [Conn(c.hostName, c.volumeName)];
  }

  lemma NewConnection(m: NodeMap, naming: Naming, ident: Option<Identity>,
          shim: Shim, s: ArrayState, p: seq<Conn>, c: Call, k: string)
    requires NamingOk(m, naming) && Named(naming, ident, c, k) && Related(naming, ident, shim, s, p)
    requires c.verb == Post && k in shim.learned && !WrongRealm(c.hostName, c.volumeName)
    ensures var v := c.volumeName;
            Refines(naming, ident, shim, c, k, (s.(conns := s.conns + [Conn(k, v)]), Answer(200, Render([Conn(k, v)]))),
                    (p + [Conn(c.hostName, v)], Answer(200, Render([Conn(c.hostName, v)]))), false)
  {
    RelatedPost(naming, ident, shim, s, p, k, c.volumeName);
    TranslatesOne(m, naming, ident, c, k);
  }

  /** A granted array host is refused a volume exactly when px's realm host would be. */
  lemma RefusesExactly(m: NodeMap, naming: Naming, ident: Option<Identity>,
          shim: Shim, s: ArrayState, p: seq<Conn>, k: string, v: string)
    requires NamingOk(m, naming) && Related(naming, ident, shim, s, p) && k in naming
    requires (k, RealmOf(naming[k])) in s.grants
    ensures Refuses(s, k, v) <==> WrongRealm(naming[k], v)
  {
    assert NameOk(m, naming, k);
  }

  lemma RefusalRefines(naming: Naming, ident: Option<Identity>, shim: Shim,
          s: ArrayState, p: seq<Conn>, c: Call, k: string, refusal: string)
    requires Related(naming, ident, shim, s, p) && c.verb == Post
    ensures Refines(naming, ident, shim, c, k, (s, Answer(400, refusal)), (p, Answer(400, "")),
                    Contains(ToLower(refusal), "already"))
  {
  }

  lemma DuplicateRefines(naming: Naming, ident: Option<Identity>, shim: Shim,
          s: ArrayState, p: seq<Conn>, c: Call, k: string, duplicate: string)
    requires Related(naming, ident, shim, s, p) && c.verb == Post && Contains(ToLower(duplicate), "already")
    ensures Refines(naming, ident, shim, c, k, (s, Answer(400, duplicate)),
                    (p, Answer(200, Render([Conn(c.hostName, c.volumeName)]))), false)
  {
  }

  lemma PostRefines(m: NodeMap, naming: Naming, ident: Option<Identity>, shim: Shim, s: ArrayState, p: seq<Conn>,
          c: Call, k: string, refusal: string, duplicate: string)
    requires NamingOk(m, naming) && Named(naming, ident, c, k) && Related(naming, ident, shim, s, p)
    requires c.verb == Post && k in shim.learned && (k, RealmOf(c.hostName)) in s.grants
    requires Contains(ToLower(duplicate), "already")
    ensures var new_ := Conn(k, c.volumeName);
            var served := if Refuses(s, k, c.volumeName) then (s, Answer(400, refusal))
                          else if new_ in s.conns then (s, Answer(400, duplicate))
                          else (s.(conns := s.conns + [new_]), Answer(200, Render([new_])));
            Refines(naming, ident, shim, c, k, served, PlainServe(p, Post, c.hostName, c.volumeName),
                    WrongRealm(c.hostName, c.volumeName) && Contains(ToLower(refusal), "already"))
  {
    NamingOneToOne(m, naming);
    RefusesExactly(m, naming, ident, shim, s, p, k, c.volumeName);
    RelatedWithout(naming, ident, shim, s, p, k, c.volumeName);
    if Refuses(s, k, c.volumeName) {
      RefusalRefines(naming, ident, shim, s, p, c, k, refusal);
    } else if Conn(k, c.volumeName) in s.conns {
      DuplicateRefines(naming, ident, shim, s, p, c, k, duplicate);
    } else {
      NewConnection(m, naming, ident, shim, s, p, c, k);
    }
  }

  lemma TranslatesNone(m: NodeMap, naming: Naming, ident: Option<Identity>, c: Call, k: string)
    requires NamingOk(m, naming) && Named(naming, ident, c, k)
    ensures Translate(c, k, Answer(200, Render([]))) == Answer(200, Render([]))
  {
    TranslatesOwn(m, naming, ident, c, k, []);
    assert RenameHosts([], naming) == [];
  }

  lemma GoneRefines(m: NodeMap, naming: Naming, ident: Option<Identity>,
          shim: Shim, s: ArrayState, p: seq<Conn>, c: Call, k: string)
    requires NamingOk(m, naming) && Named(naming, ident, c, k) && Related(naming, ident, shim, s, p)
    requires OneToOne(naming) && c.verb == Delete
    ensures Refines(naming, ident, shim, c, k,
                    (s.(conns := Without(s.conns, Conn(k, c.volumeName))), Answer(200, Render([]))),
                    (Without(p, Conn(c.hostName, c.volumeName)), Answer(200, Render([]))), false)
  {
    RelatedWithout(naming, ident, shim, s, p, k, c.volumeName);
    TranslatesNone(m, naming, ident, c, k);
  }

  lemma DeleteRefines(m: NodeMap, naming: Naming, ident: Option<Identity>, shim: Shim, s: ArrayState, p: seq<Conn>,
          c: Call, k: string, missing: string)
    requires NamingOk(m, naming) && Named(naming, ident, c, k) && Related(naming, ident, shim, s, p) && c.verb == Delete
    ensures var gone := Conn(k, c.volumeName);
            var served := if gone in s.conns then (s.(conns := Without(s.conns, gone)), Answer(200, Render([])))
                          else (s, Answer(400, missing));
            Refines(naming, ident, shim, c, k, served, PlainServe(p, Delete, c.hostName, c.volumeName), false)
  {
    NamingOneToOne(m, naming);
    RelatedWithout(naming, ident, shim, s, p, k, c.volumeName);
    GoneRefines(m, naming, ident, shim, s, p, c, k);
  }

  /** What is right under the identity is right while the identity is not known. */
  lemma LessKnown(naming: Naming, ident: Option<Identity>,
          known: Option<Identity>, learned: map<string, string>, c: Conn)
    requires IdentOk(ident, naming) && (known.None? || known == ident) && ConnOk(naming, ident, learned, c)
    ensures IdentOk(known, naming) && ConnOk(naming, known, learned, c)
  {
  }

  lemma ListedConns(naming: Naming, ident: Option<Identity>, known: Option<Identity>, learned: map<string, string>,
          all: seq<Conn>, cs: seq<Conn>)
    requires IdentOk(ident, naming) && (known.None? || known == ident)
    requires forall i :: 0 <= i < |all| ==> ConnOk(naming, ident, learned, all[i])
    requires forall c :: c in cs ==> c in all
    ensures forall i :: 0 <= i < |cs| ==> ConnOk(naming, known, learned, cs[i])
  {
    forall i | 0 <= i < |cs| ensures ConnOk(naming, known, learned, cs[i]) {
      assert cs[i] in all;
      LessKnown(naming, ident, known, learned, cs[i]);
    }
  }

  /** At each of the two rewrites the identity is not known yet, or it is `ident`. */
  predicate KnownAs(ident: Option<Identity>, ids: Ids) {
    (ids.asked.None? || ids.asked == ident) && (ids.told.None? || ids.told == ident)
  }

  /** px lists a volume's connections without naming a host. */
  lemma ListRefines(m: NodeMap, naming: Naming, ident: Option<Identity>, known: Option<Identity>, shim: Shim,
          s: ArrayState, p: seq<Conn>, c: Call)
    requires NamingOk(m, naming) && IdentOk(ident, naming) && Related(naming, ident, shim, s, p)
    requires known.None? || known == ident
    ensures var (s', a) := Serve(s, Connections(Get, "", c.volumeName));
            s' == s && a.status == 200
            && MapText(shim.learned, IdentText(known, c.fqdn, a.body)) == PlainServe(p, Get, "", c.volumeName).1.body
  {
    NamingOneToOne(m, naming);
    ListedRenamed(naming, s.conns, "", c.volumeName);
    var cs := Listed(s.conns, "", c.volumeName);
    ListedConns(naming, ident, known, shim.learned, s.conns, cs);
    VolumeListing(m, naming, known, c.fqdn, shim.learned, cs);
  }

  /** Learning and granting first: what is in place when the connection call goes out. */
  lemma PrepareRefines(m: NodeMap, naming: Naming, ident: Option<Identity>,
          shim: Shim, s: ArrayState, p: seq<Conn>, c: Call)
    requires NamingOk(m, naming) && CallOk(m, naming, ident, c) && Related(naming, ident, shim, s, p)
    requires c.hostName != ""
    ensures var k := c.pick.value.arrayHost;
            var learned := Learn(shim.learned, c.hostName, c.relearn);
            var (g, s1, ok) := GrantStep(shim.granted, s, k, RealmOf(c.hostName), c.grantLink);
            && k in learned && Related(naming, ident, Shim(learned, shim.granted), s, p)
            && Related(naming, ident, Shim(learned, g), s1, p) && (ok ==> (k, RealmOf(c.hostName)) in s1.grants)
  {
    var k := c.pick.value.arrayHost;
    LearnsItsName(m, naming, ident, shim.learned, c);
    RelatedLearned(naming, ident, shim, s, p, k);
    RelatedGranted(naming, ident, Shim(shim.learned[k := c.hostName], shim.granted), s, p, k, c.grantLink);
  }

  lemma RelatedLearned(naming: Naming, ident: Option<Identity>, shim: Shim, s: ArrayState, p: seq<Conn>, k: string)
    requires Related(naming, ident, shim, s, p) && k in naming
    ensures Related(naming, ident, Shim(shim.learned[k := naming[k]], shim.granted), s, p)
  {
    var learned := shim.learned[k := naming[k]];
    forall i | 0 <= i < |s.conns| ensures ConnOk(naming, ident, learned, s.conns[i]) {
      assert ConnOk(naming, ident, shim.learned, s.conns[i]);
    }
  }

  lemma RelatedGranted(naming: Naming, ident: Option<Identity>,
          shim: Shim, s: ArrayState, p: seq<Conn>, k: string, link: Link)
    requires Related(naming, ident, shim, s, p) && k in naming && k != "" && Free(k, NUL) && RealmOf(naming[k]) != ""
    ensures var (g, s', ok) := GrantStep(shim.granted, s, k, RealmOf(naming[k]), link);
            && Related(naming, ident, Shim(shim.learned, g), s', p)
            && (ok ==> (k, RealmOf(naming[k])) in s'.grants)
  {
    GrantKeeps(naming, shim.granted, s, k, link);
    assert forall i :: 0 <= i < |s.conns| ==> ConnOk(naming, ident, shim.learned, s.conns[i]);
  }

  /** A connecting call with the array's own texts for a refusal and a duplicate. */
  lemma PostCallRefines(m: NodeMap, naming: Naming, ident: Option<Identity>,
          shim: Shim, s: ArrayState, p: seq<Conn>, c: Call, k: string)
    requires NamingOk(m, naming) && Named(naming, ident, c, k) && Related(naming, ident, shim, s, p)
    requires c.verb == Post && k in shim.learned && (k, RealmOf(c.hostName)) in s.grants
    ensures Refines(naming, ident, shim, c, k, Serve(s, Connections(Post, k, c.volumeName)),
                    PlainServe(p, Post, c.hostName, c.volumeName), Misread(c))
  {
    var realm := RealmOf(c.volumeName);
    DuplicateSaysAlready();
    RefusalBodySaysAlready(k, realm);
    PostRefines(m, naming, ident, shim, s, p, c, k, ErrorBody(NoAccess(k, realm)), ErrorBody(CONNECTED_BEFORE));
  }

  /** The call on the host, once learning and granting are done. */
  lemma HostCallRefines(m: NodeMap, naming: Naming, ident: Option<Identity>,
          shim: Shim, s: ArrayState, p: seq<Conn>, c: Call)
    requires NamingOk(m, naming) && CallOk(m, naming, ident, c) && Related(naming, ident, shim, s, p)
    requires c.hostName != "" && c.pick.value.arrayHost in shim.learned
    requires c.verb == Post ==> (c.pick.value.arrayHost, RealmOf(c.hostName)) in s.grants
    ensures var k := c.pick.value.arrayHost;
            Refines(naming, ident, shim, c, k, Serve(s, Connections(c.verb, k, c.volumeName)),
                    PlainServe(p, c.verb, c.hostName, c.volumeName), Misread(c))
  {
    var k := c.pick.value.arrayHost;
    match c.verb
    case Get => GetRefines(m, naming, ident, shim, s, p, c, k);
    case Delete => DeleteRefines(m, naming, ident, shim, s, p, c, k, ErrorBody(NOT_CONNECTED));
    case Post => PostCallRefines(m, naming, ident, shim, s, p, c, k);
  }

  /** What the call made of the state, and what px hears of it, however the call ended. */
  lemma OutcomeRefines(naming: Naming, ident: Option<Identity>, shim: Shim, s: ArrayState, p: seq<Conn>, c: Call,
          k: string, served: (ArrayState, Answer), plain: (seq<Conn>, Answer))
    requires Related(naming, ident, shim, s, p) && Refines(naming, ident, shim, c, k, served, plain, Misread(c))
    ensures var (s', a) := Outcome(s, served, c.link);
            var (p', b) := Outcome(p, plain, c.link);
            && Related(naming, ident, shim, s', p')
            && (Agree(if a.None? then CALL_FAILED else Translate(c, k, a.value), Said(b)) <==>
                  !(Misread(c) && c.link == Served))
  {
  }

  /**
   One request, whatever happened to its calls on the way: related states stay related, and px gets the plain
   array's answer if and only if it is not a refusal that the shim misreads.
   */
  lemma StepRefines(m: NodeMap, naming: Naming, ident: Option<Identity>,
          ids: Ids, shim: Shim, s: ArrayState, p: seq<Conn>, c: Call)
    requires NamingOk(m, naming) && IdentOk(ident, naming) && CallOk(m, naming, ident, c)
    requires Related(naming, ident, shim, s, p)
    requires KnownAs(ident, ids)
    ensures var (shim', s', a) := HandleStep(shim, s, true, ids, c);
            var (p', b) := Outcome(p, PlainServe(p, c.verb, c.hostName, c.volumeName), Fate(shim, s, c));
            && Related(naming, ident, shim', s', p')
            && (Agree(a, Said(b)) <==> !(Misread(c) && Fate(shim, s, c) == Served))
  {
    if c.hostName == "" {
      ListStepRefines(m, naming, ident, ids, shim, s, p, c);
    } else {
      HostStepRefines(m, naming, ident, ids, shim, s, p, c);
    }
  }

  lemma ListStepRefines(m: NodeMap, naming: Naming, ident: Option<Identity>,
          ids: Ids, shim: Shim, s: ArrayState, p: seq<Conn>, c: Call)
    requires NamingOk(m, naming) && IdentOk(ident, naming) && CallOk(m, naming, ident, c)
    requires Related(naming, ident, shim, s, p)
    requires c.hostName == "" && KnownAs(ident, ids)
    ensures var (shim', s', a) := HandleStep(shim, s, true, ids, c);
            var (p', b) := Outcome(p, PlainServe(p, c.verb, c.hostName, c.volumeName), Fate(shim, s, c));
            Related(naming, ident, shim', s', p') && Agree(a, Said(b))
  {
    var served := Serve(s, Connections(Get, "", c.volumeName));
    ListRefines(m, naming, ident, ids.told, shim, s, p, c);
    CleanForwards(ids.asked, c.fqdn, "", c.volumeName);
    PassesThrough(shim, s, ids, c, served);
    ListOutcome(naming, ident, ids.told, shim, s, p, c, served, PlainServe(p, Get, "", c.volumeName));
    assert Fate(shim, s, c) == c.link;
  }

  lemma ListOutcome(naming: Naming, ident: Option<Identity>, known: Option<Identity>, shim: Shim, s: ArrayState,
          p: seq<Conn>, c: Call, served: (ArrayState, Answer), plain: (seq<Conn>, Answer))
    requires Related(naming, ident, shim, s, p)
    requires served.0 == s && served.1.status == 200 && plain.0 == p && plain.1.status == 200
    requires plain.1.body == MapText(shim.learned, IdentText(known, c.fqdn, served.1.body))
    ensures var (s', a) := Outcome(s, served, c.link);
            var (p', b) := Outcome(p, plain, c.link);
            && Related(naming, ident, shim, s', p')
            && Agree(if a.None? then UPSTREAM_FAILED
                     else Answer(a.value.status, MapText(shim.learned, IdentText(known, c.fqdn, a.value.body))),
                     Said(b))
  {
  }

  /** A listing without a host name is forwarded, and asks for whatever the rewritten query says. */
  lemma PassesThrough(shim: Shim, s: ArrayState, ids: Ids, c: Call, served: (ArrayState, Answer))
    requires c.hostName == "" && c.verb == Get
    requires var q := Forwarded(ids.asked, c.fqdn, "", c.volumeName);
             served == Serve(s, Connections(Get, q.host, q.volume))
    ensures var (s', a) := Outcome(s, served, c.link);
            HandleStep(shim, s, true, ids, c) == (shim, s', if a.None? then UPSTREAM_FAILED
              else Answer(a.value.status, MapText(shim.learned, IdentText(ids.told, c.fqdn, a.value.body))))
  {
  }

  /** A request that names a host: learned, granted if it is a POST, and called on the array host. */
  lemma HandledOnHost(shim: Shim, s: ArrayState, ids: Ids, c: Call, k: string)
    requires c.hostName != "" && IsRealmHost(c.hostName) && c.pick.Some? && c.pick.value.arrayHost == k
    ensures var (g, s1, ok) := GrantFirst(shim.granted, s, c, k);
            var next := Shim(Learn(shim.learned, c.hostName, c.relearn), g);
            var (s2, a) := Outcome(s1, Serve(s1, Connections(c.verb, k, c.volumeName)), c.link);
            && HandleStep(shim, s, true, ids, c) ==
                 (if !ok then (next, s1, GRANT_FAILED)
                  else (next, s2, if a.None? then CALL_FAILED else Translate(c, k, a.value)))
            && Fate(shim, s, c) == (if ok then c.link else LostBefore)
  {
  }

  lemma PxNameIsRealmHost(m: NodeMap, naming: Naming, k: string)
    requires NamingOk(m, naming) && k in naming
    ensures IsRealmHost(naming[k]) && k != "" && Free(k, NUL) && RealmOf(naming[k]) != ""
  {
    assert NameOk(m, naming, k);
  }

  lemma HostStepRefines(m: NodeMap, naming: Naming, ident: Option<Identity>,
          ids: Ids, shim: Shim, s: ArrayState, p: seq<Conn>, c: Call)
    requires NamingOk(m, naming) && CallOk(m, naming, ident, c) && Related(naming, ident, shim, s, p)
    requires c.hostName != ""
    ensures var (shim', s', a) := HandleStep(shim, s, true, ids, c);
            var (p', b) := Outcome(p, PlainServe(p, c.verb, c.hostName, c.volumeName), Fate(shim, s, c));
            && Related(naming, ident, shim', s', p')
            && (Agree(a, Said(b)) <==> !(Misread(c) && Fate(shim, s, c) == Served))
  {
    var k := c.pick.value.arrayHost;
    PrepareRefines(m, naming, ident, shim, s, p, c);
    PxNameIsRealmHost(m, naming, k);
    HandledOnHost(shim, s, ids, c, k);
    var learned := Learn(shim.learned, c.hostName, c.relearn);
    var (g, s1, ok) := GrantFirst(shim.granted, s, c, k);
    if ok {
      HostCallRefines(m, naming, ident, Shim(learned, g), s1, p, c);
      OutcomeRefines(naming, ident, Shim(learned, g), s1, p, c, k,
                     Serve(s1, Connections(c.verb, k, c.volumeName)), PlainServe(p, c.verb, c.hostName, c.volumeName));
    }
  }

  // ---- runs ----

  /** One thing px does: a /connections request, or a GET /hosts whose listing teaches names. */
  datatype Turn = ConnectionCall(c: Call, ids: Ids) | HostList(lessons: seq<Lesson>)

  /** A listed realm host that resolves is the one px uses for its array host, or the double-prefixed form. */
  ghost predicate LessonOk(m: NodeMap, naming: Naming, l: Lesson) {
    IsResolution(m, l.name, l.pick) && forall k :: Teaches(l, k) ==> k in naming && naming[k] == l.name
  }

  ghost predicate LessonsOk(m: NodeMap, naming: Naming, ls: seq<Lesson>) {
    forall i :: 0 <= i < |ls| ==> LessonOk(m, naming, ls[i])
  }

  ghost predicate TurnOk(m: NodeMap, naming: Naming, ident: Option<Identity>, t: Turn) {
    match t
    case ConnectionCall(c, ids) => CallOk(m, naming, ident, c) && KnownAs(ident, ids)
    case HostList(ls) => LessonsOk(m, naming, ls)
  }

  function ShimTurn(shim: Shim, s: ArrayState, t: Turn): (Shim, ArrayState, Option<Answer>) {
    match t
    case ConnectionCall(c, ids) => var (shim', s', a) := HandleStep(shim, s, true, ids, c); (shim', s', Some(a))
    case HostList(ls) => (shim.(learned := LearnAll(shim.learned, ls)), s, None)
  }

  /** The plain array knows one name for each host, so a listing teaches it nothing. */
  function PlainTurn(p: seq<Conn>, t: Turn, fate: Link): (seq<Conn>, Option<Answer>) {
    match t
    case ConnectionCall(c, _) =>
      var (p', b) := Outcome(p, PlainServe(p, c.verb, c.hostName, c.volumeName), fate);
      (p', Some(Said(b)))
    case HostList(_) => (p, None)
  }

  function TurnFate(shim: Shim, s: ArrayState, t: Turn): Link {
    if t.ConnectionCall? then Fate(shim, s, t.c) else Served
  }

  predicate SameAnswer(a: Option<Answer>, b: Option<Answer>) {
    (a.None? <==> b.None?) && (a.Some? && b.Some? ==> Agree(a.value, b.value))
  }

  predicate TurnMisread(t: Turn, fate: Link) { t.ConnectionCall? && Misread(t.c) && fate == Served }

  lemma LessonKeeps(m: NodeMap, naming: Naming, ident: Option<Identity>,
          shim: Shim, s: ArrayState, p: seq<Conn>, l: Lesson)
    requires Related(naming, ident, shim, s, p) && LessonOk(m, naming, l)
    ensures Related(naming, ident, shim.(learned := Learn(shim.learned, l.name, l.pick)), s, p)
  {
    if l.pick.Some? && IsRealmHost(l.name) && AfterRealm(l.name) != l.pick.value.arrayHost {
      assert Teaches(l, l.pick.value.arrayHost);
      RelatedLearned(naming, ident, shim, s, p, l.pick.value.arrayHost);
    }
  }

  lemma {:induction false} LessonsKeep(m: NodeMap, naming: Naming, ident: Option<Identity>, shim: Shim, s: ArrayState,
          p: seq<Conn>, ls: seq<Lesson>)
    requires Related(naming, ident, shim, s, p) && LessonsOk(m, naming, ls)
    ensures Related(naming, ident, shim.(learned := LearnAll(shim.learned, ls)), s, p)
    decreases |ls|
  {
    if ls != [] {
      LessonKeeps(m, naming, ident, shim, s, p, ls[0]);
      LessonsKeep(m, naming, ident, shim.(learned := Learn(shim.learned, ls[0].name, ls[0].pick)), s, p, ls[1..]);
    }
  }

  lemma TurnRefines(m: NodeMap, naming: Naming, ident: Option<Identity>,
          shim: Shim, s: ArrayState, p: seq<Conn>, t: Turn)
    requires NamingOk(m, naming) && IdentOk(ident, naming) && TurnOk(m, naming, ident, t)
    requires Related(naming, ident, shim, s, p)
    ensures var (shim', s', a) := ShimTurn(shim, s, t);
            var (p', b) := PlainTurn(p, t, TurnFate(shim, s, t));
            Related(naming, ident, shim', s', p') && (SameAnswer(a, b) <==> !TurnMisread(t, TurnFate(shim, s, t)))
  {
    match t
    case ConnectionCall(c, ids) => StepRefines(m, naming, ident, ids, shim, s, p, c);
    case HostList(ls) => LessonsKeep(m, naming, ident, shim, s, p, ls);
  }

  function ShimRun(shim: Shim, s: ArrayState, ts: seq<Turn>): (Shim, ArrayState, seq<Option<Answer>>)
    decreases |ts|
  {
    if ts == [] then (shim, s, [])
    else
      var (shim1, s1, a) := ShimTurn(shim, s, ts[0]);
      var (shim2, s2, rest) := ShimRun(shim1, s1, ts[1..]);
      (shim2, s2, [a] + rest)
  }

  /** The plain array under the same requests; `fates` says which of them were lost on the way. */
  function PlainRun(p: seq<Conn>, ts: seq<Turn>, fates: seq<Link>): (seq<Conn>, seq<Option<Answer>>)
    requires |fates| == |ts|
    decreases |ts|
  {
    if ts == [] then (p, [])
    else
      var (p1, b) := PlainTurn(p, ts[0], fates[0]);
      var (p2, rest) := PlainRun(p1, ts[1..], fates[1..]);
      (p2, [b] + rest)
  }

  function Fates(shim: Shim, s: ArrayState, ts: seq<Turn>): (r: seq<Link>)
    ensures |r| == |ts|
    decreases |ts|
  {
    if ts == [] then []
    else
      var (shim1, s1, a) := ShimTurn(shim, s, ts[0]);
      [TurnFate(shim, s, ts[0])] + Fates(shim1, s1, ts[1..])
  }

  /** Turn by turn the same answers, except exactly where a refusal is misread. */
  predicate AgreeExactly(as_: seq<Option<Answer>>, bs: seq<Option<Answer>>, ts: seq<Turn>, fates: seq<Link>) {
    && |as_| == |bs| == |ts| == |fates|
    && forall i :: 0 <= i < |ts| ==> (SameAnswer(as_[i], bs[i]) <==> !TurnMisread(ts[i], fates[i]))
  }

  ghost predicate TurnsOk(m: NodeMap, naming: Naming, ident: Option<Identity>, ts: seq<Turn>) {
    forall i :: 0 <= i < |ts| ==> TurnOk(m, naming, ident, ts[i])
  }

  /** How a run ends: answers agree but for misread refusals, and the real connections are the plain ones' image. */
  ghost predicate RunAgrees(naming: Naming, ident: Option<Identity>,
          shim: Shim, s: ArrayState, p: seq<Conn>, ts: seq<Turn>)
  {
    var (shim', s', as_) := ShimRun(shim, s, ts);
    var fates := Fates(shim, s, ts);
    var (p', bs) := PlainRun(p, ts, fates);
    && AgreeExactly(as_, bs, ts, fates)
    && p' == RenameHosts(s'.conns, naming) && Related(naming, ident, shim', s', p')
  }

  lemma RunCons(naming: Naming, ident: Option<Identity>, shim: Shim, s: ArrayState, p: seq<Conn>, ts: seq<Turn>)
    requires ts != []
    requires var (shim1, s1, a) := ShimTurn(shim, s, ts[0]);
             var fate := TurnFate(shim, s, ts[0]);
             var (p1, b) := PlainTurn(p, ts[0], fate);
             (SameAnswer(a, b) <==> !TurnMisread(ts[0], fate)) && RunAgrees(naming, ident, shim1, s1, p1, ts[1..])
    ensures RunAgrees(naming, ident, shim, s, p, ts)
  {
    var (shim1, s1, a) := ShimTurn(shim, s, ts[0]);
    var fate := TurnFate(shim, s, ts[0]);
    var (p1, b) := PlainTurn(p, ts[0], fate);
    var rest := Fates(shim1, s1, ts[1..]);
    assert ([fate] + rest)[1..] == rest;
    AgreeCons(a, b, ts[0], fate, ShimRun(shim1, s1, ts[1..]).2, PlainRun(p1, ts[1..], rest).1, ts[1..], rest);
    assert ts == [ts[0]] + ts[1..];
  }

  lemma TurnsTail(m: NodeMap, naming: Naming, ident: Option<Identity>, ts: seq<Turn>)
    requires TurnsOk(m, naming, ident, ts) && ts != []
    ensures TurnOk(m, naming, ident, ts[0]) && TurnsOk(m, naming, ident, ts[1..])
  {
  }

  /** Over every run, from every related pair of states. */
  lemma {:induction false} RunRefines(m: NodeMap, naming: Naming, ident: Option<Identity>,
          shim: Shim, s: ArrayState, p: seq<Conn>, ts: seq<Turn>)
    requires NamingOk(m, naming) && IdentOk(ident, naming) && Related(naming, ident, shim, s, p)
    requires TurnsOk(m, naming, ident, ts)
    ensures RunAgrees(naming, ident, shim, s, p, ts)
    decreases |ts|
  {
    if ts == [] {
      NoTurns(naming, ident, shim, s, p);
    } else {
      TurnsTail(m, naming, ident, ts);
      TurnRefines(m, naming, ident, shim, s, p, ts[0]);
      var (shim1, s1, a) := ShimTurn(shim, s, ts[0]);
      var (p1, b) := PlainTurn(p, ts[0], TurnFate(shim, s, ts[0]));
      RunRefines(m, naming, ident, shim1, s1, p1, ts[1..]);
      RunCons(naming, ident, shim, s, p, ts);
    }
  }

  lemma NoTurns(naming: Naming, ident: Option<Identity>, shim: Shim, s: ArrayState, p: seq<Conn>)
    requires Related(naming, ident, shim, s, p)
    ensures RunAgrees(naming, ident, shim, s, p, [])
  {
  }

  lemma AgreeCons(a: Option<Answer>, b: Option<Answer>, t: Turn, fate: Link, as_: seq<Option<Answer>>,
          bs: seq<Option<Answer>>, ts: seq<Turn>, fates: seq<Link>)
    requires SameAnswer(a, b) <==> !TurnMisread(t, fate)
    requires AgreeExactly(as_, bs, ts, fates)
    ensures AgreeExactly([a] + as_, [b] + bs, [t] + ts, [fate] + fates)
  {
  }

  /** Before the first request: connections of others only, and no grants into other realms. */
  ghost predicate Untouched(naming: Naming, ident: Option<Identity>, s: ArrayState) {
    && HostsThere(naming, s)
    && (forall i :: 0 <= i < |s.conns| ==> ConnOk(naming, ident, map[], s.conns[i]))
    && forall h, r :: (h, r) in s.grants && h in naming ==> r == RealmOf(naming[h])
  }

  lemma UntouchedRelated(naming: Naming, ident: Option<Identity>, s: ArrayState)
    requires Untouched(naming, ident, s)
    ensures Related(naming, ident, Shim(map[], {}), s, s.conns)
  {
    assert RenameHosts(s.conns, naming) == s.conns;
  }

  /** From the start: a fresh shim, and a plain array with the connections of others. */
  lemma FreshRunRefines(m: NodeMap, naming: Naming, ident: Option<Identity>, s: ArrayState, ts: seq<Turn>)
    requires NamingOk(m, naming) && IdentOk(ident, naming) && Untouched(naming, ident, s)
    requires TurnsOk(m, naming, ident, ts)
    ensures var fresh_ := Shim(map[], {});
            var (shim', s', as_) := ShimRun(fresh_, s, ts);
            var fates := Fates(fresh_, s, ts);
            var (p', bs) := PlainRun(s.conns, ts, fates);
            AgreeExactly(as_, bs, ts, fates) && p' == RenameHosts(s'.conns, naming)
  {
    UntouchedRelated(naming, ident, s);
    RunRefines(m, naming, ident, Shim(map[], {}), s, s.conns, ts);
  }

  predicate AllServed(ts: seq<Turn>) {
    forall i :: 0 <= i < |ts| && ts[i].ConnectionCall? ==> ts[i].c.grantLink == Served && ts[i].c.link == Served
  }

  lemma UndisturbedFate(m: NodeMap, naming: Naming, ident: Option<Identity>, shim: Shim, s: ArrayState, c: Call)
    requires CallOk(m, naming, ident, c) && HostsThere(naming, s) && (c.verb == Post ==> c.grantLink == Served)
    requires c.pick.None? || GrantFirst(shim.granted, s, c, c.pick.value.arrayHost).2 ==> c.link == Served
    ensures Fate(shim, s, c) == Served
  {
    RepeatedGrantSaysExist();
    assert c.hostName == "" ==> c.verb == Get;
  }

  /** One turn in which no call is lost: the request is not either. */
  lemma TurnUndisturbed(m: NodeMap, naming: Naming, ident: Option<Identity>, shim: Shim, s: ArrayState, t: Turn)
    requires HostsThere(naming, s) && TurnOk(m, naming, ident, t)
    requires t.ConnectionCall? ==> t.c.grantLink == Served && t.c.link == Served
    ensures TurnFate(shim, s, t) == Served
  {
    if t.ConnectionCall? { UndisturbedFate(m, naming, ident, shim, s, t.c); }
  }

  predicate SameHosts(s: ArrayState, t: ArrayState) { t.hosts == s.hosts && t.realms == s.realms }

  lemma ServedHosts(s: ArrayState, r: Request, link: Link)
    ensures SameHosts(s, Outcome(s, Serve(s, r), link).0)
  {
  }

  lemma GrantedHosts(granted: set<string>, s: ArrayState, host: string, realm: string, link: Link)
    ensures SameHosts(s, GrantStep(granted, s, host, realm, link).1)
  {
    ServedHosts(s, Grant(host, realm), link);
  }

  lemma ConnectionHosts(shim: Shim, s: ArrayState, c: Call)
    ensures SameHosts(s, ConnectionStep(shim, s, true, c).1)
  {
    if c.hostName != "" && IsRealmHost(c.hostName) && c.pick.Some? {
      var host, realm := c.pick.value.arrayHost, RealmOf(c.hostName);
      GrantedHosts(shim.granted, s, host, realm, c.grantLink);
      var s1 := if c.verb == Post then GrantStep(shim.granted, s, host, realm, c.grantLink).1 else s;
      ServedHosts(s1, Connections(c.verb, host, c.volumeName), c.link);
    }
  }

  /** No request makes or removes a host or a realm. */
  lemma HostsStay(shim: Shim, s: ArrayState, t: Turn)
    ensures SameHosts(s, ShimTurn(shim, s, t).1)
  {
    if t.ConnectionCall? {
      ConnectionHosts(shim, s, t.c);
      var s1 := ConnectionStep(shim, s, true, t.c).1;
      var q := Forwarded(t.ids.asked, t.c.fqdn, t.c.hostName, t.c.volumeName);
      ServedHosts(s1, Connections(t.c.verb, q.host, q.volume), t.c.link);
    }
  }

  predicate NoneLost(fates: seq<Link>) { forall i :: 0 <= i < |fates| ==> fates[i] == Served }

  lemma FatesCons(shim: Shim, s: ArrayState, ts: seq<Turn>)
    requires ts != [] && TurnFate(shim, s, ts[0]) == Served
    requires NoneLost(Fates(ShimTurn(shim, s, ts[0]).0, ShimTurn(shim, s, ts[0]).1, ts[1..]))
    ensures NoneLost(Fates(shim, s, ts))
  {
    var rest := Fates(ShimTurn(shim, s, ts[0]).0, ShimTurn(shim, s, ts[0]).1, ts[1..]);
    assert Fates(shim, s, ts) == [Served] + rest;
  }

  /** When no call is lost or rejected, no request is: grants between existing hosts and realms are always accepted. */
  lemma {:induction false} UndisturbedFates(m: NodeMap, naming: Naming,
          ident: Option<Identity>, shim: Shim, s: ArrayState, ts: seq<Turn>)
    requires HostsThere(naming, s) && TurnsOk(m, naming, ident, ts) && AllServed(ts)
    ensures NoneLost(Fates(shim, s, ts))
    decreases |ts|
  {
    if ts != [] {
      TurnsTail(m, naming, ident, ts);
      TurnUndisturbed(m, naming, ident, shim, s, ts[0]);
      HostsStay(shim, s, ts[0]);
      UndisturbedFates(m, naming, ident, ShimTurn(shim, s, ts[0]).0, ShimTurn(shim, s, ts[0]).1, ts[1..]);
      FatesCons(shim, s, ts);
    }
  }

  /** In related states the learned names can be exchanged in any order. */
  lemma RelatedExchanges(m: NodeMap, naming: Naming, ident: Option<Identity>, shim: Shim, s: ArrayState, p: seq<Conn>)
    requires NamingOk(m, naming) && Related(naming, ident, shim, s, p)
    ensures Exchangeable(shim.learned)
  {
    forall k | k in naming
      ensures Free(k, QUOTE) && Free(naming[k], QUOTE) && !IsRealmHost(k) && IsRealmHost(naming[k])
    {
      assert NameOk(m, naming, k);
    }
  }

  // ---- why the forwarded query must be clean ----

  /** A state in which px has one connection, of the listed volume. */
  function OneConnection(naming: Naming, k: string, v: string): (Shim, ArrayState, seq<Conn>)
    requires k in naming
  {
    (Shim(map[k := naming[k]], {}),
     ArrayState(naming.Keys, set j | j in naming :: RealmOf(naming[j]), {}, [Conn(k, v)]),
     [Conn(naming[k], v)])
  }

  /** Longer than all of these names. */
  lemma {:induction false} NameBound(ks: set<string>) returns (n: nat)
    ensures forall k :: k in ks ==> |k| <= n
    decreases ks
  {
    n := 0;
    if ks != {} {
      var k :| k in ks;
      var rest := NameBound(ks - {k});
      n := if |k| <= rest then rest else |k|;
    }
  }

  /** There is always another volume. */
  lemma AnotherVolume(naming: Naming, ident: Option<Identity>, v: string) returns (w: string)
    ensures VolumeOk(naming, ident, w) && w != v
  {
    var taken := naming.Keys + {v} + if ident.Some? then {ident.value.id, ident.value.name} else {};
    var n := NameBound(taken);
    w := seq(n + 1, _ => 'x');
    assert w !in taken;
  }

  /** With one connection, a listing of another volume tells that the wrong one was asked for. */
  lemma TellingListing(c: Conn, d: Conn, v: string, w: string)
    requires v != "" && v != w && c.volume == d.volume && Free(c.host, QUOTE) && Free(d.host, QUOTE)
    requires Free(c.volume, QUOTE) && (if w == "" then c.volume != v else c.volume == v)
    ensures Listed([c], "", w) == [] || Listed([c], "", w) == [c]
    ensures Listed([c], "", w) == [] <==> Listed([d], "", v) == [d]
    ensures Listed([d], "", v) == [] || Listed([d], "", v) == [d]
    ensures Render([]) != Render([d])
  {
    assert [c][1..] == [] && [d][1..] == [];
    if Render([]) == Render([d]) { RenderInjective([], [d]); }
  }

  lemma RelatedOne(naming: Naming, ident: Option<Identity>, k: string, v: string)
    requires k in naming && VolumeOk(naming, ident, v)
    ensures var (shim, s, p) := OneConnection(naming, k, v); Related(naming, ident, shim, s, p)
  {
    var (shim, s, p) := OneConnection(naming, k, v);
    assert RenameHosts([Conn(k, v)], naming) == p;
  }

  /** Listing another volume than px asked for gives a wrong answer in some related state. */
  lemma OtherVolumeWrong(m: NodeMap, naming: Naming, ident: Option<Identity>, ids: Ids, c: Call, k: string)
    returns (shim: Shim, s: ArrayState, p: seq<Conn>)
    requires NamingOk(m, naming) && IdentOk(ident, naming) && KnownAs(ident, ids) && k in naming
    requires c.hostName == "" && c.verb == Get && c.link == Served && VolumeOk(naming, ident, c.volumeName)
    requires c.volumeName != ""
    requires var q := Forwarded(ids.asked, c.fqdn, "", c.volumeName); q.host == "" && q.volume != c.volumeName
    ensures Related(naming, ident, shim, s, p)
    ensures !Agree(HandleStep(shim, s, true, ids, c).2, PlainServe(p, Get, "", c.volumeName).1)
  {
    var v, w := c.volumeName, Forwarded(ids.asked, c.fqdn, "", c.volumeName).volume;
    var x := v;
    if w == "" { x := AnotherVolume(naming, ident, v); }
    var one := OneConnection(naming, k, x);
    shim, s, p := one.0, one.1, one.2;
    RelatedOne(naming, ident, k, x);
    assert NameOk(m, naming, k);
    TellingListing(Conn(k, x), Conn(naming[k], x), v, w);
    ForwardedListing(m, naming, ident, ids, c, k, x, w);
  }

  /** What px gets of the one connection when the array is asked for `w`. */
  lemma ForwardedListing(m: NodeMap, naming: Naming, ident: Option<Identity>,
          ids: Ids, c: Call, k: string, x: string, w: string)
    requires NamingOk(m, naming) && IdentOk(ident, naming) && KnownAs(ident, ids) && k in naming
    requires c.hostName == "" && c.verb == Get && c.link == Served && VolumeOk(naming, ident, x)
    requires Forwarded(ids.asked, c.fqdn, "", c.volumeName) == Asked("", w)
    requires Listed([Conn(k, x)], "", w) == [] || Listed([Conn(k, x)], "", w) == [Conn(k, x)]
    ensures var (shim, s, p) := OneConnection(naming, k, x);
            var listed := if Listed([Conn(k, x)], "", w) == [] then [] else [Conn(naming[k], x)];
            HandleStep(shim, s, true, ids, c).2 == Answer(200, Render(listed))
  {
    var (shim, s, p) := OneConnection(naming, k, x);
    var cs := Listed([Conn(k, x)], "", w);
    var served := (s, Answer(200, Render(cs)));
    PassesThrough(shim, s, ids, c, served);
    OneToldBack(m, naming, ident, ids.told, c.fqdn, k, x, cs);
  }

  lemma RenamedOne(naming: Naming, k: string, x: string)
    requires k in naming
    ensures RenameHosts([], naming) == [] && RenameHosts([Conn(k, x)], naming) == [Conn(naming[k], x)]
  {
  }

  lemma OneToldBack(m: NodeMap, naming: Naming, ident: Option<Identity>, told: Option<Identity>, fqdn: string,
          k: string, x: string, cs: seq<Conn>)
    requires NamingOk(m, naming) && IdentOk(ident, naming) && (told.None? || told == ident) && k in naming
    requires VolumeOk(naming, ident, x) && (cs == [] || cs == [Conn(k, x)])
    ensures MapText(map[k := naming[k]], IdentText(told, fqdn, Render(cs)))
         == Render(if cs == [] then [] else [Conn(naming[k], x)])
  {
    var learned, one := map[k := naming[k]], Conn(k, x);
    LessKnown(naming, ident, told, learned, one);
    VolumeListing(m, naming, told, fqdn, learned, cs);
    RenamedOne(naming, k, x);
  }

  lemma ListedAsNamed(m: NodeMap, naming: Naming, real_: Identity, shim: Shim, s: ArrayState, p: seq<Conn>, c: Call)
    requires NamingOk(m, naming) && IdentOk(Some(real_), naming) && Related(naming, Some(real_), shim, s, p)
    requires c.hostName == "" && c.verb == Get && c.link == Served && QueryClean(Some(real_), c.fqdn, "", c.volumeName)
    ensures Agree(HandleStep(shim, s, true, Ids(Some(real_), Some(real_)), c).2,
                  PlainServe(p, Get, "", c.volumeName).1)
  {
    var ids := Ids(Some(real_), Some(real_));
    CleanForwards(Some(real_), c.fqdn, "", c.volumeName);
    ListRefines(m, naming, Some(real_), Some(real_), shim, s, p, c);
    PassesThrough(shim, s, ids, c, Serve(s, Connections(Get, "", c.volumeName)));
  }

  /**
   For URL-safe identities: px's volume listing is right in every related state if and only if the query mentions
   neither synthetic value.
   */
  lemma VolumeListingExactly(m: NodeMap, naming: Naming, real_: Identity, c: Call, k: string)
    requires NamingOk(m, naming) && IdentOk(Some(real_), naming) && k in naming && PicksOk(m, c)
    requires c.hostName == "" && c.verb == Get && c.link == Served && VolumeOk(naming, Some(real_), c.volumeName)
    requires UrlSafe(real_, c.fqdn) && Synth(real_, c.fqdn).id != real_.id
    ensures var ids := Ids(Some(real_), Some(real_));
            (forall shim, s, p :: Related(naming, Some(real_), shim, s, p) ==>
               Agree(HandleStep(shim, s, true, ids, c).2, PlainServe(p, Get, "", c.volumeName).1))
            <==> QueryClean(Some(real_), c.fqdn, "", c.volumeName)
  {
    var ids, v := Ids(Some(real_), Some(real_)), c.volumeName;
    ForwardsExactly(real_, c.fqdn, v);
    if QueryClean(Some(real_), c.fqdn, "", v) {
      forall shim, s, p | Related(naming, Some(real_), shim, s, p)
        ensures Agree(HandleStep(shim, s, true, ids, c).2, PlainServe(p, Get, "", v).1)
      {
        ListedAsNamed(m, naming, real_, shim, s, p, c);
      }
    } else {
      ForwardedVolume(real_, c.fqdn, v);
      var shim, s, p := OtherVolumeWrong(m, naming, Some(real_), ids, c, k);
    }
  }
}
