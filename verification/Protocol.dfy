/**
 What one /connections request does to the shim and to the array, as a function of its inputs and of
 everything the shim does not control: which resolution the map order gave, and how each call on the
 array ended.
 */
module Protocol {
  import opened GoStrings
  import opened Options
  import opened QuotedText
  import opened Config
  import opened Resolve
  import opened ArraySession
  import opened FlashArray
  import opened ArrayIdentity
  import opened Query

  /** byArrayHost and granted. */
  datatype Shim = Shim(learned: map<string, string>, granted: set<string>)

  const NUL: char := '\0'

  function GrantKey(host: string, realm: string): string { host + [NUL] + realm }

  /** Only px's own names are kept; the double-prefixed "<realm>::<arrayHost>" is not one of them. */
  function Learn(learned: map<string, string>, name: string, pick: Option<HostMapping>): map<string, string> {
    if pick.None? || !IsRealmHost(name) || AfterRealm(name) == pick.value.arrayHost then learned
    else learned[pick.value.arrayHost := name]
  }

  predicate GrantAccepted(a: Answer) {
    a.status == 200 || (a.status == 400 && Contains(ToLower(a.body), "exist"))
  }

  function GrantStep(granted: set<string>, s: ArrayState, host: string, realm: string, link: Link)
    : (set<string>, ArrayState, bool)
  {
    if host == "" || realm == "" || GrantKey(host, realm) in granted then (granted, s, true)
    else
      var (s', a) := Outcome(s, Serve(s, Grant(host, realm)), link);
      if a.Some? && GrantAccepted(a.value) then (granted + {GrantKey(host, realm)}, s', true) else (granted, s', false)
  }

  const GRANT_ERROR := "px-smt-multirealm-shim realm-access grant error"
  const CALL_ERROR := "px-smt-multirealm-shim connection rewrite error"
  const UPSTREAM_ERROR := "px-smt-multirealm-shim upstream error"

  const GRANT_FAILED := Answer(502, ErrorBody(GRANT_ERROR))
  const CALL_FAILED := Answer(502, ErrorBody(CALL_ERROR))
  const UPSTREAM_FAILED := Answer(502, UPSTREAM_ERROR)

  /**
   One request as it reaches the shim, with the resolutions the two calls of `resolve` gave and the ends
   of the grant call and of the connection call.
   */
  datatype Call = Call(verb: Verb, fqdn: string, hostName: string, volumeName: string,
                       pick: Option<HostMapping>, relearn: Option<HostMapping>, grantLink: Link, link: Link)

  predicate PicksOk(m: NodeMap, c: Call) {
    IsResolution(m, c.hostName, c.pick) && IsResolution(m, c.hostName, c.relearn)
  }

  /** The answer as px gets it: a duplicate POST is a success, and the array host carries px's name. */
  function Translate(c: Call, arrayHost: string, a: Answer): Answer {
    if c.verb == Post && a.status == 400 && Contains(ToLower(a.body), "already") then
      Answer(200, Render([Conn(c.hostName, c.volumeName)]))
    else
      Answer(a.status, ReplaceAll(a.body, Quoted(arrayHost), Quoted(c.hostName)))
  }

  /** Only a POST needs the grant. */
  function GrantFirst(granted: set<string>, s: ArrayState, c: Call, host: string): (set<string>, ArrayState, bool) {
    if c.verb == Post then GrantStep(granted, s, host, RealmOf(c.hostName), c.grantLink) else (granted, s, true)
  }

  /** The calls on the array host: the grant before a POST, and, unless that failed, the connection call. */
  function GrantAndCall(shim: Shim, s: ArrayState, c: Call, host: string): (Shim, ArrayState, Answer) {
    var (granted, s1, ok) := GrantFirst(shim.granted, s, c, host);
    if !ok then (shim.(granted := granted), s1, GRANT_FAILED)
    else
      var (s2, a) := Outcome(s1, Serve(s1, Connections(c.verb, host, c.volumeName)), c.link);
      (shim.(granted := granted), s2, if a.None? then CALL_FAILED else Translate(c, host, a.value))
  }

  /** `connection`; None lets the request pass through. */
  function ConnectionStep(shim: Shim, s: ArrayState, session: bool, c: Call): (Shim, ArrayState, Option<Answer>) {
    if c.hostName == "" || !IsRealmHost(c.hostName) || c.pick.None? then (shim, s, None)
    else
      var shim1 := shim.(learned := Learn(shim.learned, c.hostName, c.relearn));
      if !session then (shim1, s, None)
      else
        var (shim2, s2, a) := GrantAndCall(shim1, s, c, c.pick.value.arrayHost);
        (shim2, s2, Some(a))
  }

  /** The grant counts only when the array says 200, or 400 with "exist" in the text. A network error or any other
      answer, such as the 404 of an array without the call, leaves the cache as it was, and a POST gets the error. */
  lemma GrantCounts(shim: Shim, s: ArrayState, c: Call, host: string)
    requires c.verb == Post && host != "" && RealmOf(c.hostName) != ""
    requires GrantKey(host, RealmOf(c.hostName)) !in shim.granted
    ensures var (s1, a) := Outcome(s, Serve(s, Grant(host, RealmOf(c.hostName))), c.grantLink);
            var (shim', s', answer) := GrantAndCall(shim, s, c, host);
            var counts := a.Some? && (a.value.status == 200
                                      || (a.value.status == 400 && Contains(ToLower(a.value.body), "exist")));
            && (shim'.granted == if counts then shim.granted + {GrantKey(host, RealmOf(c.hostName))} else shim.granted)
            && (!counts ==> s' == s1 && answer == GRANT_FAILED && answer.status == 502)
  {
  }

  /** Without an array session px's name is learned all the same, but the request goes on under px's own names, as
      long as its query is clean, and nothing else is sent. */
  lemma WithoutSession(shim: Shim, s: ArrayState, ids: Ids, c: Call)
    requires QueryClean(ids.asked, c.fqdn, c.hostName, c.volumeName)
    ensures var (shim', s', a) := HandleStep(shim, s, false, ids, c);
            && shim'.granted == shim.granted
            && (c.pick.Some? ==> shim'.learned == Learn(shim.learned, c.hostName, c.relearn))
            && (c.pick.None? ==> shim' == shim)
            && s' == Outcome(s, Serve(s, Connections(c.verb, c.hostName, c.volumeName)), c.link).0
            && (c.link.Served? ==> a.status == Serve(s, Connections(c.verb, c.hostName, c.volumeName)).1.status)
            && (!c.link.Served? && Outcome(s, Serve(s, Connections(c.verb, c.hostName, c.volumeName)), c.link).1.None?
                ==> a == UPSTREAM_FAILED)
  {
    CleanForwards(ids.asked, c.fqdn, c.hostName, c.volumeName);
  }

  function MapText(learned: map<string, string>, body: string): string { Text(MapBack(Pieces(body), learned)) }

  /** One ReplaceAll of a quoted name is the exchange of that one name. */
  lemma OneName(body: string, k: string, v: string)
    requires Free(k, QUOTE)
    ensures ReplaceAll(body, Quoted(k), Quoted(v)) == MapText(map[k := v], body)
  {
    var ps := Pieces(body);
    JoinSplit(body, QUOTE);
    QuotedReplace(ps, k, v);
    assert MapBack(ps, map[]) == ps;
    MapBackStep(ps, map[], k, v);
    assert map[][k := v] == map[k := v];
  }

  function IdentText(ident: Option<Identity>, fqdn: string, body: string): string {
    if ident.None? then body else Response(ident.value, fqdn, body)
  }

  /** What the shim knew of the array's identity when it rewrote the query, and when it rewrote the answer. */
  datatype Ids = Ids(asked: Option<Identity>, told: Option<Identity>)

  /** The array under a request passed on, which carries the rewritten query. */
  function ForwardedOutcome(s: ArrayState, ids: Ids, c: Call): (ArrayState, Option<Answer>) {
    var q := Forwarded(ids.asked, c.fqdn, c.hostName, c.volumeName);
    Outcome(s, Serve(s, Connections(c.verb, q.host, q.volume)), c.link)
  }

  /** A request passed on, and its answer on the way back, a GET's with px's names in it. */
  function ForwardStep(learned: map<string, string>, s: ArrayState, ids: Ids, c: Call): (ArrayState, Answer) {
    var (s', a) := ForwardedOutcome(s, ids, c);
    if a.None? then (s', UPSTREAM_FAILED)
    else
      var body := IdentText(ids.told, c.fqdn, a.value.body);
      (s', Answer(a.value.status, if c.verb == Get then MapText(learned, body) else body))
  }

  /** The whole pipeline: intercept, or forward with the query rewritten and rewrite a GET listing on its way back. */
  function HandleStep(shim: Shim, s: ArrayState, session: bool, ids: Ids, c: Call): (Shim, ArrayState, Answer) {
    var (shim1, s1, synth) := ConnectionStep(shim, s, session, c);
    if synth.Some? then (shim1, s1, synth.value)
    else
      var (s2, a) := ForwardStep(shim1.learned, s1, ids, c);
      (shim1, s2, a)
  }

  /** Names the shim can exchange in a text without any order showing. */
  ghost predicate Exchangeable(m: map<string, string>) {
    && (forall k :: k in m ==> Free(k, QUOTE) && Free(m[k], QUOTE))
    && ValuesFresh(m)
  }

  /** The names of `order`, replaced one after the other. */
  function InOrder(order: seq<string>, m: map<string, string>, body: string): string
    requires forall k :: k in order ==> k in m
  {
    if order == [] then body
    else var n := |order| - 1; ReplaceAll(InOrder(order[..n], m, body), Quoted(order[n]), Quoted(m[order[n]]))
  }

  predicate NoRepeats(order: seq<string>) { forall i, j :: 0 <= i < j < |order| ==> order[i] != order[j] }

  /** One way to range over the map. */
  ghost predicate Enumerates(order: seq<string>, m: map<string, string>) {
    NoRepeats(order) && forall k :: k in order <==> k in m
  }

  function Only(order: seq<string>, m: map<string, string>): map<string, string>
    requires forall k :: k in order ==> k in m
  {
    map k | k in order :: m[k]
  }

  lemma {:induction false} AfterSome(order: seq<string>, m: map<string, string>, body: string)
    requires NoRepeats(order) && (forall k :: k in order ==> k in m) && Exchangeable(m)
    ensures InOrder(order, m, body) == MapText(Only(order, m), body)
  {
    var ps := Pieces(body);
    JoinSplit(body, QUOTE);
    if order == [] {
      assert MapBack(ps, Only(order, m)) == ps;
    } else {
      var n := |order| - 1;
      var k, before := order[n], Only(order[..n], m);
      AfterSome(order[..n], m, body);
      assert order == order[..n] + [k];
      assert Only(order, m) == before[k := m[k]];
      MapBackFree(ps, before);
      QuotedReplace(MapBack(ps, before), k, m[k]);
      MapBackStep(ps, before, k, m[k]);
    }
  }

  /** Every iteration order of exchangeable names gives the one simultaneous exchange. */
  lemma OrderIrrelevant(order: seq<string>, m: map<string, string>, body: string)
    requires Enumerates(order, m) && Exchangeable(m)
    ensures InOrder(order, m, body) == MapText(m, body)
  {
    AfterSome(order, m, body);
    assert Only(order, m) == m;
  }
}
