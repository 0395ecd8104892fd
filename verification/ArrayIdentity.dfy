/**
 The synthetic array identity: per FQDN a name and an id that replace the real ones in responses and
 are mapped back in requests.
 */
module ArrayIdentity {
  import opened GoStrings
  import opened Options
  import opened QuotedText
  import Fnv

  datatype Identity = Identity(name: string, id: string)

  /** Go strings are byte strings. */
  predicate ByteString(s: string) { forall i :: 0 <= i < |s| ==> s[i] as int < 256 }

  function BytesOf(s: string): (r: seq<Fnv.Byte>)
    ensures |r| == |s|
  {
    seq(|s|, i requires 0 <= i < |s| => s[i] as int % 256)
  }

  /** The first label of the FQDN; a name without a dot, or with a leading one, is its own label. */
  function Label(fqdn: string): string {
    var i := Index(fqdn, ".");
    if i > 0 then fqdn[..i] else fqdn
  }

  function IdPrefix(id: string): string { if |id| >= 24 then id[..24] else id }

  function Synth(real_: Identity, fqdn: string): Identity {
    Identity(real_.name + "-" + Label(fqdn), IdPrefix(real_.id) + Fnv.Hex(Fnv.Sum48(BytesOf(fqdn)), 12))
  }

  /** Responses: the id first, then the name, both as quoted text. */
  function Response(real_: Identity, fqdn: string, body: string): string {
    var syn := Synth(real_, fqdn);
    ReplaceAll(ReplaceAll(body, Quoted(real_.id), Quoted(syn.id)), Quoted(real_.name), Quoted(syn.name))
  }

  /** Requests: the id first, then the name, both wherever they occur. */
  function Request(real_: Identity, fqdn: string, s: string): string { Undo(real_, Synth(real_, fqdn), s) }

  function Undo(real_: Identity, syn: Identity, s: string): string
    requires syn.id != "" && syn.name != ""
  {
    ReplaceAll(ReplaceAll(s, syn.id, real_.id), syn.name, real_.name)
  }

  /** What GET /arrays gave the shim: no session, an error, or a status and the decoded items. */
  datatype ArraysReply = NoSession | Failed | Reply(status: int, items: seq<Identity>)

  predicate Usable(r: ArraysReply) { r.Reply? && r.status == 200 && |r.items| > 0 }

  /** The identity is latched by the first usable reply. */
  function Latch(known: Option<Identity>, reply: ArraysReply): Option<Identity> {
    if known.None? && Usable(reply) then Some(reply.items[0]) else known
  }

  function LatchAll(known: Option<Identity>, replies: seq<ArraysReply>): Option<Identity>
    decreases |replies|
  {
    if replies == [] then known else LatchAll(Latch(known, replies[0]), replies[1..])
  }

  class ArrayIdentity {
    var ready: bool
    var name: string
    var id: string

    function Known(): Option<Identity> reads this { if ready then Some(Identity(name, id)) else None }

    constructor ()
      ensures Known() == None
    {
      ready, name, id := false, "", "";
    }

    method Ensure(reply: ArraysReply)
      modifies this
      ensures Known() == Latch(old(Known()), reply)
    {
      if ready || reply.NoSession? { return; }
      if reply.Failed? || reply.status != 200 { return; }
      if |reply.items| > 0 {
        name, id := reply.items[0].name, reply.items[0].id;
        ready := true;
      }
    }

    method SynthFor(fqdn: string, reply: ArraysReply) returns (syn: Option<Identity>)
      modifies this
      ensures Known() == Latch(old(Known()), reply)
      ensures syn == if Known().None? then None else Some(Synth(Known().value, fqdn))
    {
      Ensure(reply);
      if !ready { return None; }
      var first := fqdn;
      var i := Index(fqdn, ".");
      if i > 0 { first := fqdn[..i]; }
      var prefix := id;
      if |prefix| >= 24 { prefix := prefix[..24]; }
      syn := Some(Identity(name + "-" + first, prefix + Fnv.Hex(Fnv.Sum48(BytesOf(fqdn)), 12)));
    }

    method RewriteResponseBody(fqdn: string, body: string, reply: ArraysReply) returns (out: string)
      modifies this
      ensures Known() == Latch(old(Known()), reply)
      ensures out == if Known().None? then body else Response(Known().value, fqdn, body)
    {
      var syn := SynthFor(fqdn, reply);
      if syn.None? { return body; }
      out := ReplaceAll(body, Quoted(id), Quoted(syn.value.id));
      out := ReplaceAll(out, Quoted(name), Quoted(syn.value.name));
    }

    method RewriteRequestString(fqdn: string, s: string, reply: ArraysReply) returns (out: string)
      modifies this
      ensures Known() == Latch(old(Known()), reply)
      ensures out == if Known().None? then s else Request(Known().value, fqdn, s)
    {
      var syn := SynthFor(fqdn, reply);
      if syn.None? || s == "" { return s; }
      out := ReplaceAll(s, syn.value.id, id);
      out := ReplaceAll(out, syn.value.name, name);
    }
  }

  /** Once known, the identity is the first usable reply of the run and no later reply changes it. */
  lemma {:induction false} FirstUsableReplyWins(replies: seq<ArraysReply>, i: nat)
    requires i < |replies| && Usable(replies[i]) && forall j :: 0 <= j < i ==> !Usable(replies[j])
    ensures LatchAll(None, replies) == Some(replies[i].items[0])
  {
    if i == 0 {
      LatchedStays(replies[0].items[0], replies[1..]);
    } else {
      assert !Usable(replies[0]);
      FirstUsableReplyWins(replies[1..], i - 1);
    }
  }

  lemma {:induction false} LatchedStays(known: Identity, replies: seq<ArraysReply>)
    ensures LatchAll(Some(known), replies) == Some(known)
  {
    if replies != [] { LatchedStays(known, replies[1..]); }
  }

  // ---- what the synthetic values are made of ----

  lemma {:induction false} FirstDot(l: string, d: string)
    requires Free(l, '.')
    ensures Index(l + "." + d, ".") == |l|
  {
    var s := l + "." + d;
    if l == "" {
      assert s[..1] == ".";
    } else {
      assert s[0] == l[0] && s[1..] == l[1..] + "." + d;
      FirstDot(l[1..], d);
    }
  }

  lemma NoDot(l: string)
    requires Free(l, '.')
    ensures Index(l, ".") < 0
  {
    assert "."[0] == '.';
    if Contains(l, ".") { ContainsChar(l, ".", '.'); }
  }

  /** The name carries the FQDN's first label, whatever domain is behind it. */
  lemma NameCarriesLabel(real_: Identity, l: string, d: string)
    requires l != "" && Free(l, '.')
    ensures Synth(real_, l + "." + d).name == Synth(real_, l).name == real_.name + "-" + l
  {
    FirstDot(l, d);
    NoDot(l);
    assert (l + "." + d)[..|l|] == l;
  }

  /** The text before the first dot, and what is behind it. */
  lemma AtFirstDot(f: string)
    requires !Free(f, '.')
    ensures var l := Split(f, '.')[0]; Free(l, '.') && |l| < |f| && f == l + "." + f[|l| + 1..]
  {
    JoinSplit(f, '.');
    var ps := Split(f, '.');
    if |ps| > 1 { assert f == ps[0] + ['.'] + Join(ps[1..], '.'); }
  }

  /** Of two FQDNs that do not begin with a dot the names coincide exactly when the first labels do. */
  lemma NamesEqualExactly(real_: Identity, f: string, g: string)
    requires (f == "" || f[0] != '.') && (g == "" || g[0] != '.')
    ensures Synth(real_, f).name == Synth(real_, g).name <==> Split(f, '.')[0] == Split(g, '.')[0]
  {
    NameIsLabel(real_, f);
    NameIsLabel(real_, g);
    var head := real_.name + "-";
    assert Synth(real_, f).name[|head|..] == Split(f, '.')[0];
    assert Synth(real_, g).name[|head|..] == Split(g, '.')[0];
  }

  lemma NameIsLabel(real_: Identity, f: string)
    requires f == "" || f[0] != '.'
    ensures Synth(real_, f).name == real_.name + "-" + Split(f, '.')[0]
  {
    if Free(f, '.') {
      NoDot(f);
      SplitFree(f);
    } else {
      AtFirstDot(f);
      var l := Split(f, '.')[0];
      assert f[0] == (l + ".")[0];
      NameCarriesLabel(real_, l, f[|l| + 1..]);
    }
  }

  lemma SplitFree(f: string)
    requires Free(f, '.')
    ensures Split(f, '.') == [f]
  {
    SplitJoin([f], '.');
  }

  /** The id keeps the real one up to its last group, and the rest reads back as the low 48 bits of the hash. */
  lemma IdParts(real_: Identity, fqdn: string)
    requires |real_.id| == 36
    ensures var id := Synth(real_, fqdn).id;
            && |id| == 36 && id[..24] == real_.id[..24]
            && Fnv.ParseHex(id[24..]) == Fnv.Sum64(BytesOf(fqdn)) % 0x1_0000_0000_0000
  {
    var id, h := Synth(real_, fqdn).id, Fnv.Sum48(BytesOf(fqdn));
    assert id[..24] == real_.id[..24] && id[24..] == Fnv.Hex(h, 12);
    Fnv.Pow2Values();
    Fnv.HexRoundTrip(h, 12);
  }

  /** FQDNs of equal length that differ in one byte look like two different arrays. */
  lemma OneByteApartIds(real_: Identity, f: string, g: string, i: nat)
    requires ByteString(f) && ByteString(g) && |f| == |g| && i < |f| && f[i] != g[i]
    requires forall j :: 0 <= j < |f| && j != i ==> f[j] == g[j]
    ensures Synth(real_, f).id != Synth(real_, g).id
  {
    Fnv.OneByteApart(BytesOf(f), BytesOf(g), i);
    IdsEqualExactly(real_, f, g);
  }

  /** Two FQDNs share a synthetic id exactly when their 48-bit hashes collide. */
  lemma IdsEqualExactly(real_: Identity, f: string, g: string)
    ensures Synth(real_, f).id == Synth(real_, g).id <==> Fnv.Sum48(BytesOf(f)) == Fnv.Sum48(BytesOf(g))
  {
    var n := |IdPrefix(real_.id)|;
    assert Synth(real_, f).id[n..] == Fnv.Hex(Fnv.Sum48(BytesOf(f)), 12);
    assert Synth(real_, g).id[n..] == Fnv.Hex(Fnv.Sum48(BytesOf(g)), 12);
    if Synth(real_, f).id == Synth(real_, g).id {
      Fnv.Hex12Injective(Fnv.Sum48(BytesOf(f)), Fnv.Sum48(BytesOf(g)));
    }
  }

  ghost predicate QuoteFree(real_: Identity, fqdn: string) {
    Free(real_.name, QUOTE) && Free(real_.id, QUOTE) && Free(fqdn, QUOTE)
  }

  /** The body mentions neither synthetic value. */
  predicate Clean(real_: Identity, fqdn: string, body: string) {
    !Contains(body, Synth(real_, fqdn).id) && !Contains(body, Synth(real_, fqdn).name)
  }

  /**
   The two synthetic values do not get in each other's way: the id does not sit in the synthetic name,
   or it already sits in the real name (then no clean body mentions the name) without being it.
   */
  predicate Separable(real_: Identity, fqdn: string) {
    var syn := Synth(real_, fqdn);
    !Contains(syn.name, syn.id) || (Contains(real_.name, syn.id) && real_.name != syn.id)
  }

  lemma SynthFree(real_: Identity, fqdn: string)
    requires QuoteFree(real_, fqdn)
    ensures Free(Synth(real_, fqdn).name, QUOTE) && Free(Synth(real_, fqdn).id, QUOTE)
    ensures |Synth(real_, fqdn).name| > |real_.name|
    ensures Contains(Synth(real_, fqdn).name, real_.name)
    ensures |real_.id| == 36 ==> |Synth(real_, fqdn).id| == 36
  {
    HexFree(Fnv.Sum48(BytesOf(fqdn)), 12);
    assert Synth(real_, fqdn).name[..|real_.name|] == real_.name;
  }

  lemma {:induction false} HexFree(v: nat, n: nat)
    ensures Free(Fnv.Hex(v, n), QUOTE)
  {
    if n > 0 { HexFree(v / 16, n - 1); }
  }

  /** The pieces of a body after the response rewrite. */
  function SynthPieces(real_: Identity, fqdn: string, ps: seq<string>): seq<string> {
    var syn := Synth(real_, fqdn);
    PieceReplace(PieceReplace(ps, real_.id, syn.id), real_.name, syn.name)
  }

  /** What a request makes of one piece. */
  function PieceBack(real_: Identity, fqdn: string, p: string): string { Request(real_, fqdn, p) }

  function PiecesBack(real_: Identity, fqdn: string, ps: seq<string>): (r: seq<string>)
    ensures |r| == |ps|
  {
    seq(|ps|, i requires 0 <= i < |ps| => PieceBack(real_, fqdn, ps[i]))
  }

  /** `q` is what the response rewrite may have made of `p`: the id step, then the name step. */
  predicate Became(real_: Identity, fqdn: string, p: string, q: string) {
    var syn := Synth(real_, fqdn);
    || q == p
    || (p == real_.id && q == syn.id)
    || (p == real_.name && q == syn.name)
    || (p == real_.id && syn.id == real_.name && q == syn.name)
  }

  lemma ResponsePieces(real_: Identity, fqdn: string, ps: seq<string>)
    requires QuoteFree(real_, fqdn) && |ps| >= 1 && AllFree(ps, QUOTE)
    ensures |SynthPieces(real_, fqdn, ps)| == |ps| && AllFree(SynthPieces(real_, fqdn, ps), QUOTE)
    ensures Response(real_, fqdn, Text(ps)) == Text(SynthPieces(real_, fqdn, ps))
    ensures forall i :: 0 <= i < |ps| ==> Became(real_, fqdn, ps[i], SynthPieces(real_, fqdn, ps)[i])
  {
    var syn := Synth(real_, fqdn);
    SynthFree(real_, fqdn);
    var qs := PieceReplace(ps, real_.id, syn.id);
    QuotedReplace(ps, real_.id, syn.id);
    forall i | 0 <= i < |ps| ensures qs[i] == if Hit(ps, real_.id, i) then syn.id else ps[i] {
      PieceReplaceAt(ps, real_.id, syn.id, i);
    }
    QuotedReplace(qs, real_.name, syn.name);
    forall i | 0 <= i < |ps|
      ensures SynthPieces(real_, fqdn, ps)[i] == if Hit(qs, real_.name, i) then syn.name else qs[i]
    {
      PieceReplaceAt(qs, real_.name, syn.name, i);
    }
  }

  lemma {:induction false} ReplaceFree(s: string, old_: string, new_: string)
    requires Free(s, QUOTE) && Free(new_, QUOTE) && old_ != ""
    ensures Free(ReplaceAll(s, old_, new_), QUOTE)
    decreases |s|
  {
    if old_ <= s {
      ReplaceFree(s[|old_|..], old_, new_);
    } else if s != "" {
      ReplaceFree(s[1..], old_, new_);
    }
  }

  lemma RequestPieces(real_: Identity, fqdn: string, ps: seq<string>)
    requires QuoteFree(real_, fqdn) && |ps| >= 1 && AllFree(ps, QUOTE)
    ensures Request(real_, fqdn, Text(ps)) == Text(PiecesBack(real_, fqdn, ps))
    ensures AllFree(PiecesBack(real_, fqdn, ps), QUOTE)
  {
    var syn := Synth(real_, fqdn);
    SynthFree(real_, fqdn);
    InnerReplace(ps, syn.id, real_.id, QUOTE);
    var qs := InsidePieces(ps, syn.id, real_.id);
    forall i | 0 <= i < |ps|
      ensures Free(qs[i], QUOTE) && Free(PiecesBack(real_, fqdn, ps)[i], QUOTE)
    {
      ReplaceFree(ps[i], syn.id, real_.id);
      ReplaceFree(qs[i], syn.name, real_.name);
    }
    InnerReplace(qs, syn.name, real_.name, QUOTE);
    assert InsidePieces(qs, syn.name, real_.name) == PiecesBack(real_, fqdn, ps);
  }

  lemma UndoAbsent(real_: Identity, syn: Identity, p: string)
    requires syn.id != "" && syn.name != "" && !Contains(p, syn.id) && !Contains(p, syn.name)
    ensures Undo(real_, syn, p) == p
  {
    ReplaceAbsent(p, syn.id, real_.id);
    ReplaceAbsent(p, syn.name, real_.name);
  }

  lemma UndoId(real_: Identity, syn: Identity)
    requires syn.id != "" && syn.name != "" && !Contains(real_.id, syn.name)
    ensures Undo(real_, syn, syn.id) == real_.id
  {
    ReplaceWhole(syn.id, real_.id);
    ReplaceAbsent(real_.id, syn.name, real_.name);
  }

  lemma UndoName(real_: Identity, syn: Identity)
    requires syn.id != "" && syn.name != "" && !Contains(syn.name, syn.id)
    ensures Undo(real_, syn, syn.name) == real_.name
  {
    ReplaceAbsent(syn.name, syn.id, real_.id);
    ReplaceWhole(syn.name, real_.name);
  }

  /** A clean piece comes back. */
  lemma CleanPieceBack(real_: Identity, fqdn: string, p: string, q: string)
    requires QuoteFree(real_, fqdn) && Clean(real_, fqdn, p) && Became(real_, fqdn, p, q)
    requires Separable(real_, fqdn)
    ensures PieceBack(real_, fqdn, q) == p
  {
    var syn := Synth(real_, fqdn);
    SynthFree(real_, fqdn);
    if q == p {
      UndoAbsent(real_, syn, p);
    } else if p == real_.id && q == syn.id {
      UndoId(real_, syn);
    } else {
      ContainsItself(real_.name);
      UndoName(real_, syn);
    }
  }

  lemma ContainsItself(s: string)
    ensures Contains(s, s)
  {
    assert s <= s;
  }

  lemma {:induction false} ContainsSameLength(s: string, sub: string)
    requires |s| == |sub| && Contains(s, sub)
    ensures s == sub
  {
    if s != "" { ContainsShort(s[1..], sub); }
  }

  /** A piece that mentions a synthetic value does not come back. */
  lemma DirtyPieceLost(real_: Identity, fqdn: string, p: string, q: string)
    requires QuoteFree(real_, fqdn) && |real_.id| == 36 && Synth(real_, fqdn).id != real_.id
    requires !Contains(Synth(real_, fqdn).name, Synth(real_, fqdn).id)
    requires !Clean(real_, fqdn, p) && Became(real_, fqdn, p, q)
    ensures PieceBack(real_, fqdn, q) != p
  {
    var syn := Synth(real_, fqdn);
    SynthFree(real_, fqdn);
    ContainsItself(real_.name);
    if q == p {
      UndoPresent(real_, syn, p);
    } else if p == real_.id && q == syn.id {
      if Contains(p, syn.id) { ContainsSameLength(p, syn.id); }
      ReplaceWhole(syn.id, real_.id);
      ReplaceShrinks(real_.id, syn.name, real_.name);
    } else if p == real_.name {
      ContainsShort(p, syn.name);
      if Contains(p, syn.id) { ContainsSub(syn.name, real_.name, syn.id); }
    }
  }

  lemma UndoPresent(real_: Identity, syn: Identity, p: string)
    requires |syn.id| == |real_.id| > 0 && syn.id != real_.id && |syn.name| > |real_.name|
    requires Contains(p, syn.id) || Contains(p, syn.name)
    ensures Undo(real_, syn, p) != p
  {
    var r := ReplaceAll(p, syn.id, real_.id);
    ReplaceSameLength(p, syn.id, real_.id);
    if !Contains(p, syn.id) { ReplaceAbsent(p, syn.id, real_.id); }
    ReplaceShrinks(r, syn.name, real_.name);
    if !Contains(r, syn.name) { ReplaceAbsent(r, syn.name, real_.name); }
  }

  /** Rewriting a response and then mapping it back as a request gives the body back, piece by piece. */
  lemma BackPieces(real_: Identity, fqdn: string, ps: seq<string>)
    requires QuoteFree(real_, fqdn) && |ps| >= 1 && AllFree(ps, QUOTE)
    ensures var qs := SynthPieces(real_, fqdn, ps);
            && |qs| == |ps|
            && Request(real_, fqdn, Response(real_, fqdn, Text(ps))) == Text(PiecesBack(real_, fqdn, qs))
            && AllFree(PiecesBack(real_, fqdn, qs), QUOTE)
            && forall i :: 0 <= i < |ps| ==> Became(real_, fqdn, ps[i], qs[i])
  {
    ResponsePieces(real_, fqdn, ps);
    RequestPieces(real_, fqdn, SynthPieces(real_, fqdn, ps));
  }

  lemma CleanPieces(real_: Identity, fqdn: string, ps: seq<string>)
    requires QuoteFree(real_, fqdn) && |ps| >= 1 && AllFree(ps, QUOTE)
    ensures Clean(real_, fqdn, Text(ps)) <==> forall i :: 0 <= i < |ps| ==> Clean(real_, fqdn, ps[i])
  {
    SynthFree(real_, fqdn);
    ContainsInPiece(ps, Synth(real_, fqdn).id, QUOTE);
    ContainsInPiece(ps, Synth(real_, fqdn).name, QUOTE);
  }

  /**
   The round trip: every body that mentions neither synthetic value comes back exactly, although one
   direction works on quoted and the other on unquoted text.
   */
  lemma RoundTrip(real_: Identity, fqdn: string, body: string)
    requires QuoteFree(real_, fqdn) && Clean(real_, fqdn, body)
    requires Separable(real_, fqdn)
    ensures Request(real_, fqdn, Response(real_, fqdn, body)) == body
  {
    var ps := Pieces(body);
    JoinSplit(body, QUOTE);
    BackPieces(real_, fqdn, ps);
    CleanPieces(real_, fqdn, ps);
    var qs := SynthPieces(real_, fqdn, ps);
    forall i | 0 <= i < |ps| ensures PiecesBack(real_, fqdn, qs)[i] == ps[i] {
      CleanPieceBack(real_, fqdn, ps[i], qs[i]);
    }
    assert PiecesBack(real_, fqdn, qs) == ps;
  }

  /** For a real id of UUID length these are the only bodies that come back. */
  lemma RoundTripExactly(real_: Identity, fqdn: string, body: string)
    requires QuoteFree(real_, fqdn) && |real_.id| == 36 && Synth(real_, fqdn).id != real_.id
    requires !Contains(Synth(real_, fqdn).name, Synth(real_, fqdn).id)
    ensures Request(real_, fqdn, Response(real_, fqdn, body)) == body <==> Clean(real_, fqdn, body)
  {
    if Clean(real_, fqdn, body) {
      RoundTrip(real_, fqdn, body);
    } else {
      var ps := Pieces(body);
      JoinSplit(body, QUOTE);
      BackPieces(real_, fqdn, ps);
      CleanPieces(real_, fqdn, ps);
      var qs := SynthPieces(real_, fqdn, ps);
      var i :| 0 <= i < |ps| && !Clean(real_, fqdn, ps[i]);
      DirtyPieceLost(real_, fqdn, ps[i], qs[i]);
      assert PiecesBack(real_, fqdn, qs)[i] != ps[i];
      if Text(PiecesBack(real_, fqdn, qs)) == Text(ps) {
        JoinInjective(PiecesBack(real_, fqdn, qs), ps, QUOTE);
      }
    }
  }

  /** Which identities the round trip holds for, over all clean bodies: exactly the separable ones. */
  lemma RoundTripIdentities(real_: Identity, fqdn: string)
    requires QuoteFree(real_, fqdn) && |real_.id| == 36 && Synth(real_, fqdn).id != real_.id
    ensures (forall body :: Clean(real_, fqdn, body) ==> Request(real_, fqdn, Response(real_, fqdn, body)) == body)
       <==> Separable(real_, fqdn)
  {
    var syn := Synth(real_, fqdn);
    if Separable(real_, fqdn) {
      forall body | Clean(real_, fqdn, body)
        ensures Request(real_, fqdn, Response(real_, fqdn, body)) == body
      {
        RoundTrip(real_, fqdn, body);
      }
    } else {
      WitnessLost(real_, fqdn);
      assert Clean(real_, fqdn, Text(Witness(real_, Synth(real_, fqdn))));
    }
  }

  /**
   A quoted value, as pieces, that a response turns into the synthetic name. When name and id coincide
   the id step takes the first of two, and the shared quote keeps it from taking the second.
   */
  function Witness(real_: Identity, syn: Identity): seq<string> {
    if real_.name == syn.id then ["", real_.id, ""]
    else if real_.name == real_.id then ["", real_.name, real_.name, ""] else ["", real_.name, ""]
  }

  /** For inseparable values that one quoted value, although clean, does not come back. */
  lemma WitnessLost(real_: Identity, fqdn: string)
    requires QuoteFree(real_, fqdn) && |real_.id| == 36 && Synth(real_, fqdn).id != real_.id
    requires !Separable(real_, fqdn)
    ensures Clean(real_, fqdn, Text(Witness(real_, Synth(real_, fqdn))))
    ensures var body := Text(Witness(real_, Synth(real_, fqdn)));
            Request(real_, fqdn, Response(real_, fqdn, body)) != body
  {
    var ps := Witness(real_, Synth(real_, fqdn));
    SynthFree(real_, fqdn);
    AllWitnessClean(real_, fqdn);
    CleanPieces(real_, fqdn, ps);
    BackPieces(real_, fqdn, ps);
    WitnessLonger(real_, fqdn);
    var back := PiecesBack(real_, fqdn, SynthPieces(real_, fqdn, ps));
    if Text(back) == Text(ps) { JoinInjective(back, ps, QUOTE); }
  }

  lemma AllWitnessClean(real_: Identity, fqdn: string)
    requires QuoteFree(real_, fqdn) && |real_.id| == 36 && Synth(real_, fqdn).id != real_.id
    requires !Separable(real_, fqdn)
    ensures var ps := Witness(real_, Synth(real_, fqdn));
            forall i :: 0 <= i < |ps| ==> Clean(real_, fqdn, ps[i])
  {
    SynthFree(real_, fqdn);
    ContainsShort("", Synth(real_, fqdn).id);
    ContainsShort("", Synth(real_, fqdn).name);
    WitnessClean(real_, fqdn);
  }

  /** The last value comes back longer than it was. */
  lemma WitnessLonger(real_: Identity, fqdn: string)
    requires QuoteFree(real_, fqdn) && |real_.id| == 36 && Synth(real_, fqdn).id != real_.id
    requires !Separable(real_, fqdn)
    ensures var ps := Witness(real_, Synth(real_, fqdn));
            var back := PiecesBack(real_, fqdn, SynthPieces(real_, fqdn, ps));
            |back| == |ps| && |back[|ps| - 2]| > |ps[|ps| - 2]|
  {
    SynthFree(real_, fqdn);
    WitnessSynth(real_, fqdn);
    NameKeepsLength(real_, Synth(real_, fqdn));
  }

  lemma WitnessClean(real_: Identity, fqdn: string)
    requires QuoteFree(real_, fqdn) && |real_.id| == 36 && Synth(real_, fqdn).id != real_.id
    requires !Separable(real_, fqdn)
    ensures var ps := Witness(real_, Synth(real_, fqdn)); Clean(real_, fqdn, ps[|ps| - 2])
  {
    var syn := Synth(real_, fqdn);
    SynthFree(real_, fqdn);
    if real_.name == syn.id {
      ContainsShort(real_.id, syn.name);
      if Contains(real_.id, syn.id) { ContainsSameLength(real_.id, syn.id); }
    } else {
      ContainsShort(real_.name, syn.name);
    }
  }

  lemma NameKeepsLength(real_: Identity, syn: Identity)
    requires |syn.id| == |real_.id| > 0 && syn.id != real_.id && syn.name != "" && Contains(syn.name, syn.id)
    ensures |Undo(real_, syn, syn.name)| == |syn.name|
  {
    var r := ReplaceAll(syn.name, syn.id, real_.id);
    ReplaceSameLength(syn.name, syn.id, real_.id);
    if Contains(r, syn.name) {
      ContainsSameLength(r, syn.name);
    }
    ReplaceAbsent(r, syn.name, real_.name);
  }

  lemma WitnessSynth(real_: Identity, fqdn: string)
    requires !Separable(real_, fqdn) && Synth(real_, fqdn).id != real_.id
    ensures var ps := Witness(real_, Synth(real_, fqdn));
            |SynthPieces(real_, fqdn, ps)| == |ps| && SynthPieces(real_, fqdn, ps)[|ps| - 2] == Synth(real_, fqdn).name
  {
    var syn := Synth(real_, fqdn);
    var ps := Witness(real_, syn);
    var n := |ps|;
    ContainsItself(real_.name);
    var qs := PieceReplace(ps, real_.id, syn.id);
    assert !Hit(ps, real_.id, 0);
    PieceReplaceAt(ps, real_.id, syn.id, 1);
    PieceReplaceAt(ps, real_.id, syn.id, n - 2);
    assert !Hit(qs, real_.name, 0);
    if n == 4 {
      assert Hit(ps, real_.id, 1) && !Hit(ps, real_.id, 2);
      assert !Hit(qs, real_.name, 1);
    }
    assert Hit(qs, real_.name, n - 2);
    PieceReplaceAt(qs, real_.name, syn.name, n - 2);
  }
}
