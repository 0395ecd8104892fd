/**
 The array behind the shim: grants, connections and the JSON text of its answers. It follows the
 in-memory array of the integration tests, extended with DELETE, real listings, missing hosts and
 "already exists" answers.
 */
module FlashArray {
  import opened GoStrings
  import opened QuotedText
  import opened Resolve
  import opened ArraySession

  datatype Verb = Get | Post | Delete

  datatype Conn = Conn(host: string, volume: string)

  datatype Request =
    | Grant(host: string, realm: string)
    | Connections(verb: Verb, hostName: string, volumeName: string) // "" stands for a missing parameter

  datatype ArrayState = ArrayState(hosts: set<string>, realms: set<string>, grants: set<(string, string)>,
                                   conns: seq<Conn>)

  function ErrorBody(msg: string): string { Text(["{", "errors", ":[{", "message", ":", msg, "}]}"]) }

  const NO_HOST := "Host does not exist."
  const NO_REALM := "Realm does not exist."
  const GRANTED_BEFORE := "Resource access already exists."
  const CONNECTED_BEFORE := "Connection already exists."
  const NOT_CONNECTED := "Connection does not exist."

  function NoAccess(host: string, realm: string): string {
    "Host " + host + " does not have access to realm " + realm + "."
  }

  /** The pieces of one item, up to its last name; `first` tells whether it opens the list. */
  function Head(c: Conn, first: bool): (r: seq<string>)
    ensures |r| == 12
  {
    [if first then ":[{" else "}},{", "host", ":{", "name", ":", c.host, "},", "volume", ":{", "name", ":", c.volume]
  }

  function ItemPieces(cs: seq<Conn>, first: bool): (r: seq<string>)
    ensures |r| == 12 * |cs| + 1
  {
    if cs == [] then [if first then ":[]}" else "}}]}"] else Head(cs[0], first) + ItemPieces(cs[1..], false)
  }

  function RenderPieces(cs: seq<Conn>): seq<string> { ["{", "items"] + ItemPieces(cs, true) }

  /** {"items":[{"host":{"name":H},"volume":{"name":V}},...]} */
  function Render(cs: seq<Conn>): string { Text(RenderPieces(cs)) }

  /** Every piece of an answer that is not a name. */
  const STRUCTURE: set<string> :=
    {"{", "items", ":[{", "}},{", "host", ":{", "name", ":", "},", "volume", ":[]}", "}}]}", "errors", "message", "}]}"}

  function Listed(cs: seq<Conn>, host: string, volume: string): seq<Conn> {
    if cs == [] then []
    else (if (host == "" || cs[0].host == host) && (volume == "" || cs[0].volume == volume) then [cs[0]] else [])
         + Listed(cs[1..], host, volume)
  }

  function Without(cs: seq<Conn>, c: Conn): seq<Conn> {
    if cs == [] then [] else (if cs[0] == c then [] else [cs[0]]) + Without(cs[1..], c)
  }

  /** An array-level host may join a realm's volume only after it was granted access into that realm. */
  predicate Refuses(s: ArrayState, host: string, volume: string) {
    !IsRealmHost(host) && IsRealmHost(volume) && (host, RealmOf(volume)) !in s.grants
  }

  function Serve(s: ArrayState, r: Request): (ArrayState, Answer) {
    match r
    case Grant(host, realm) =>
      if host !in s.hosts then (s, Answer(400, ErrorBody(NO_HOST)))
      else if realm !in s.realms then (s, Answer(400, ErrorBody(NO_REALM)))
      else if (host, realm) in s.grants then (s, Answer(400, ErrorBody(GRANTED_BEFORE)))
      else (s.(grants := s.grants + {(host, realm)}), Answer(200, Render([])))
    case Connections(Get, host, volume) => (s, Answer(200, Render(Listed(s.conns, host, volume))))
    case Connections(Post, host, volume) =>
      var c := Conn(host, volume);
      if host !in s.hosts then (s, Answer(400, ErrorBody(NO_HOST)))
      else if Refuses(s, host, volume) then (s, Answer(400, ErrorBody(NoAccess(host, RealmOf(volume)))))
      else if c in s.conns then (s, Answer(400, ErrorBody(CONNECTED_BEFORE)))
      else (s.(conns := s.conns + [c]), Answer(200, Render([c])))
    case Connections(Delete, host, volume) =>
      var c := Conn(host, volume);
      if c in s.conns then (s.(conns := Without(s.conns, c)), Answer(200, Render([])))
      else (s, Answer(400, ErrorBody(NOT_CONNECTED)))
  }

  function RenameHosts(cs: seq<Conn>, m: map<string, string>): (r: seq<Conn>)
    ensures |r| == |cs|
  {
    seq(|cs|, i requires 0 <= i < |cs| => Conn(if cs[i].host in m then m[cs[i].host] else cs[i].host, cs[i].volume))
  }

  predicate NamesFree(cs: seq<Conn>) {
    forall i :: 0 <= i < |cs| ==> Free(cs[i].host, QUOTE) && Free(cs[i].volume, QUOTE)
  }

  /** No name to be exchanged is a JSON token or a listed volume. */
  predicate Apart(cs: seq<Conn>, m: map<string, string>) {
    m.Keys !! STRUCTURE && forall i :: 0 <= i < |cs| ==> cs[i].volume !in m
  }

  lemma {:induction false} ItemsFree(cs: seq<Conn>, first: bool)
    requires NamesFree(cs)
    ensures AllFree(ItemPieces(cs, first), QUOTE)
  {
    if cs != [] { ItemsFree(cs[1..], false); }
  }

  /** The only piece of an item that may be a name to exchange is its host, and a comma piece follows it. */
  lemma HeadTokens(c: Conn, m: map<string, string>, first: bool)
    requires m.Keys !! STRUCTURE && c.volume !in m
    ensures TokenMap(Head(c, first), m) == Head(Conn(if c.host in m then m[c.host] else c.host, c.volume), first)
    ensures forall i :: 0 <= i < 12 && Head(c, first)[i] in m ==> i == 5
  {
    forall i | 0 <= i < 12 && i != 5 ensures Head(c, first)[i] !in m {
      assert i != 11 ==> Head(c, first)[i] in STRUCTURE;
    }
  }

  lemma {:induction false} ItemTokens(cs: seq<Conn>, m: map<string, string>, first: bool)
    requires Apart(cs, m)
    ensures TokenMap(ItemPieces(cs, first), m) == ItemPieces(RenameHosts(cs, m), first)
    ensures var ps := ItemPieces(cs, first);
            forall i :: 0 <= i < |ps| && ps[i] in m ==> i + 1 < |ps| && ps[i + 1] == "},"
    ensures var ps := ItemPieces(cs, first); ps[0] !in m && ps[|ps| - 1] !in m
  {
    if cs == [] {
      assert ItemPieces(cs, first)[0] in STRUCTURE;
    } else {
      var head, rest := Head(cs[0], first), ItemPieces(cs[1..], false);
      ItemTokens(cs[1..], m, false);
      HeadTokens(cs[0], m, first);
      assert RenameHosts(cs, m)[1..] == RenameHosts(cs[1..], m);
      TokenMapAppend(head, rest, m);
      var ps := head + rest;
      forall i | 0 <= i < |ps| && ps[i] in m ensures i + 1 < |ps| && ps[i + 1] == "}," {
        if i >= 12 { assert ps[i] == rest[i - 12] && ps[i + 1 - 12 + 12] == rest[i + 1 - 12]; }
      }
    }
  }

  lemma TokenMapAppend(a: seq<string>, b: seq<string>, m: map<string, string>)
    ensures TokenMap(a + b, m) == TokenMap(a, m) + TokenMap(b, m)
  {
  }

  /** Mapping names back in the text of a listing maps them back in the listing. */
  lemma MapBackRender(cs: seq<Conn>, m: map<string, string>)
    requires NamesFree(cs) && Apart(cs, m)
    ensures Pieces(Render(cs)) == RenderPieces(cs) && AllFree(RenderPieces(cs), QUOTE)
    ensures Text(MapBack(Pieces(Render(cs)), m)) == Render(RenameHosts(cs, m))
  {
    var ps := RenderPieces(cs);
    ItemsFree(cs, true);
    SplitJoin(ps, QUOTE);
    ItemTokens(cs, m, true);
    TokenMapAppend(["{", "items"], ItemPieces(cs, true), m);
    assert TokenMap(["{", "items"], m) == ["{", "items"];
    assert forall i :: 0 <= i < |ps| && ps[i] in m ==> i >= 2 && i + 1 < |ps| && ps[i + 1] == "}," by {
      assert forall i :: 2 <= i < |ps| ==> ps[i] == ItemPieces(cs, true)[i - 2];
    }
    assert NoNeighbours(ps, m);
    TokenWise(ps, m);
  }

  /** In an error answer nothing is exchanged but a message that is a learned name as a whole. */
  lemma MapBackError(msg: string, m: map<string, string>)
    requires Free(msg, QUOTE) && m.Keys !! STRUCTURE
    ensures Text(MapBack(Pieces(ErrorBody(msg)), m)) == ErrorBody(if msg in m then m[msg] else msg)
  {
    var ps := ["{", "errors", ":[{", "message", ":", msg, "}]}"];
    SplitJoin(ps, QUOTE);
    assert msg in m ==> ps[4] in STRUCTURE && Hit(ps, msg, 5);
    assert MapBack(ps, m) == ["{", "errors", ":[{", "message", ":", if msg in m then m[msg] else msg, "}]}"];
  }

  lemma {:induction false} ItemsInjective(cs: seq<Conn>, ds: seq<Conn>, first: bool)
    requires ItemPieces(cs, first) == ItemPieces(ds, first)
    ensures cs == ds
  {
    if cs != [] && ds != [] {
      var ps, qs := ItemPieces(cs, first), ItemPieces(ds, first);
      assert ps[..12] == Head(cs[0], first) && qs[..12] == Head(ds[0], first);
      assert ps[5] == cs[0].host && qs[5] == ds[0].host && ps[11] == cs[0].volume && qs[11] == ds[0].volume;
      assert ps[12..] == ItemPieces(cs[1..], false) && qs[12..] == ItemPieces(ds[1..], false);
      ItemsInjective(cs[1..], ds[1..], false);
      assert cs == [cs[0]] + cs[1..] && ds == [ds[0]] + ds[1..];
    }
  }

  /** A listing can be read back from its text. */
  lemma RenderInjective(cs: seq<Conn>, ds: seq<Conn>)
    requires NamesFree(cs) && NamesFree(ds) && Render(cs) == Render(ds)
    ensures cs == ds
  {
    ItemsFree(cs, true);
    ItemsFree(ds, true);
    JoinInjective(RenderPieces(cs), RenderPieces(ds), QUOTE);
    assert RenderPieces(cs)[2..] == ItemPieces(cs, true) && RenderPieces(ds)[2..] == ItemPieces(ds, true);
    ItemsInjective(cs, ds, true);
  }
}
