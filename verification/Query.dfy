/**
 The query of a forwarded request: px's parameters as URL text, the identity rewrite on that text, and
 what the array reads from it.
 */
module Query {
  import opened GoStrings
  import opened Options
  import opened QuotedText
  import opened ArrayIdentity

  // ---- the text of a query ----

  predicate Unreserved(c: char) {
    'a' <= c <= 'z' || 'A' <= c <= 'Z' || '0' <= c <= '9' || c == '-' || c == '_' || c == '.' || c == '~'
  }

  predicate Plain(s: string) { forall i :: 0 <= i < |s| ==> Unreserved(s[i]) }

  function UpperHex(d: nat): char
    requires d < 16
  {
    if d < 10 then '0' + d as char else 'A' + (d - 10) as char
  }

  predicate IsUpperHex(c: char) { '0' <= c <= '9' || 'A' <= c <= 'F' }

  function UpperHexValue(c: char): (v: nat)
    requires IsUpperHex(c)
    ensures v < 16
  {
    if c <= '9' then (c - '0') as nat else (c - 'A') as nat + 10
  }

  /** url.QueryEscape on one byte. What is no byte does not occur in Go's strings and stays. */
  function EscapeChar(c: char): string {
    if Unreserved(c) || c as int >= 256 then [c]
    else if c == ' ' then "+"
    else ['%', UpperHex(c as int / 16), UpperHex(c as int % 16)]
  }

  function Escape(s: string): string { if s == "" then "" else EscapeChar(s[0]) + Escape(s[1..]) }

  function Unescape(s: string): string
    decreases |s|
  {
    if s == "" then ""
    else if s[0] == '%' && |s| >= 3 && IsUpperHex(s[1]) && IsUpperHex(s[2]) then
      [(16 * UpperHexValue(s[1]) + UpperHexValue(s[2])) as char] + Unescape(s[3..])
    else [if s[0] == '+' then ' ' else s[0]] + Unescape(s[1..])
  }

  const HOSTS := "host_names"
  const VOLUMES := "volume_names"

  function Pair(key: string, value: string): string { key + ['='] + Escape(value) }

  /** url.Values.Encode; a missing parameter is left out. */
  function Pairs(host: string, volume: string): seq<string> {
    (if host == "" then [] else [Pair(HOSTS, host)]) + (if volume == "" then [] else [Pair(VOLUMES, volume)])
  }

  function RawQuery(host: string, volume: string): string {
    if Pairs(host, volume) == [] then "" else Join(Pairs(host, volume), '&')
  }

  /** The first value under `key`; "" when there is none. */
  function ValueIn(pieces: seq<string>, key: string): string {
    if pieces == [] then ""
    else if key + ['='] <= pieces[0] then Unescape(pieces[0][|key| + 1..])
    else ValueIn(pieces[1..], key)
  }

  function Param(raw: string, key: string): string { ValueIn(Split(raw, '&'), key) }

  // ---- the rewrite ----

  /** rewriteRequestString on the raw query. */
  function AskText(known: Option<Identity>, fqdn: string, raw: string): string {
    if known.None? || raw == "" then raw else Request(known.value, fqdn, raw)
  }

  datatype Asked = Asked(host: string, volume: string)

  /** What the array is asked when px asked for `host` and `volume`. */
  function Forwarded(known: Option<Identity>, fqdn: string, host: string, volume: string): Asked {
    var q := AskText(known, fqdn, RawQuery(host, volume));
    Asked(Param(q, HOSTS), Param(q, VOLUMES))
  }

  lemma HexPair(d: nat)
    requires d < 256
    ensures var a, b := UpperHex(d / 16), UpperHex(d % 16);
            IsUpperHex(a) && IsUpperHex(b) && 16 * UpperHexValue(a) + UpperHexValue(b) == d
  {
  }

  lemma DecodeNext(c: char, rest: string)
    ensures Unescape(EscapeChar(c) + rest) == [c] + Unescape(rest)
  {
    var e := EscapeChar(c);
    assert (e + rest)[0] == e[0] && (e + rest)[|e|..] == rest;
    if |e| == 3 {
      HexPair(c as int);
      assert (e + rest)[1] == e[1] && (e + rest)[2] == e[2];
    }
  }

  lemma {:induction false} UnescapeEscape(s: string)
    ensures Unescape(Escape(s)) == s
  {
    if s != "" {
      UnescapeEscape(s[1..]);
      DecodeNext(s[0], Escape(s[1..]));
      assert s == [s[0]] + s[1..];
    }
  }

  lemma {:induction false} EscapeFree(s: string, c: char)
    requires c == '&' || c == '='
    ensures Free(Escape(s), c)
  {
    if s != "" { EscapeFree(s[1..], c); }
  }

  lemma ValueOfPair(key: string, value: string)
    ensures key + ['='] <= Pair(key, value) && Unescape(Pair(key, value)[|key| + 1..]) == value
  {
    UnescapeEscape(value);
    assert Pair(key, value)[|key| + 1..] == Escape(value);
  }

  lemma PairFree(key: string, value: string)
    requires Free(key, '&')
    ensures Free(Pair(key, value), '&')
  {
    EscapeFree(value, '&');
  }

  lemma ReadFirst(key: string, value: string, more: seq<string>)
    ensures ValueIn([Pair(key, value)] + more, key) == value
  {
    ValueOfPair(key, value);
  }

  lemma ReadNext(p: string, more: seq<string>, key: string)
    requires !(key + ['='] <= p)
    ensures ValueIn([p] + more, key) == ValueIn(more, key)
  {
    assert ([p] + more)[1..] == more;
  }

  lemma ReadPairs(host: string, volume: string)
    ensures ValueIn(Pairs(host, volume), HOSTS) == host && ValueIn(Pairs(host, volume), VOLUMES) == volume
  {
    var h, v := Pair(HOSTS, host), Pair(VOLUMES, volume);
    var last := if volume == "" then [] else [v];
    KeysDiffer(host, volume);
    if volume != "" {
      assert [v] + [] == [v];
      ReadFirst(VOLUMES, volume, []);
      ReadNext(v, [], HOSTS);
    }
    if host != "" {
      ReadFirst(HOSTS, host, last);
      ReadNext(h, last, VOLUMES);
    }
    assert Pairs(host, volume) == (if host == "" then [] else [h]) + last;
    assert [] + last == last;
  }

  lemma NothingRead()
    ensures Param("", HOSTS) == "" && Param("", VOLUMES) == ""
  {
    assert Split("", '&') == [""] + [];
    ReadNext("", [], HOSTS);
    ReadNext("", [], VOLUMES);
  }

  /** The array reads from the text what px meant. */
  lemma QueryRoundTrip(host: string, volume: string)
    ensures Param(RawQuery(host, volume), HOSTS) == host && Param(RawQuery(host, volume), VOLUMES) == volume
  {
    var ps := Pairs(host, volume);
    ReadPairs(host, volume);
    PairFree(HOSTS, host);
    PairFree(VOLUMES, volume);
    if ps == [] {
      NothingRead();
    } else {
      SplitJoin(ps, '&');
    }
  }

  lemma KeysDiffer(host: string, volume: string)
    ensures !(VOLUMES + ['='] <= Pair(HOSTS, host)) && !(HOSTS + ['='] <= Pair(VOLUMES, volume))
  {
    assert Pair(HOSTS, host)[0] == 'h' && (HOSTS + ['='])[0] == 'h';
    assert Pair(VOLUMES, volume)[0] == 'v' && (VOLUMES + ['='])[0] == 'v';
  }

  /** The raw query mentions neither synthetic value. */
  predicate QueryClean(known: Option<Identity>, fqdn: string, host: string, volume: string) {
    known.Some? ==> Clean(known.value, fqdn, RawQuery(host, volume))
  }

  /** A clean query is forwarded as it is. */
  lemma CleanForwards(known: Option<Identity>, fqdn: string, host: string, volume: string)
    requires QueryClean(known, fqdn, host, volume)
    ensures AskText(known, fqdn, RawQuery(host, volume)) == RawQuery(host, volume)
    ensures Forwarded(known, fqdn, host, volume) == Asked(host, volume)
  {
    if known.Some? { UndoAbsent(known.value, Synth(known.value, fqdn), RawQuery(host, volume)); }
    QueryRoundTrip(host, volume);
  }

  // ---- replacing in escaped text ----

  lemma {:induction false} EscapePlain(s: string)
    requires Plain(s)
    ensures Escape(s) == s
  {
    if s != "" { EscapePlain(s[1..]); }
  }

  lemma {:induction false} EscapeAppend(a: string, b: string)
    ensures Escape(a + b) == Escape(a) + Escape(b)
  {
    if a == "" {
      assert a + b == b;
    } else {
      assert (a + b)[0] == a[0] && (a + b)[1..] == a[1..] + b;
      EscapeAppend(a[1..], b);
    }
  }

  /** A plain prefix of an escaped text was there before. */
  lemma {:induction false} PlainPrefix(k: string, v: string)
    requires Plain(k)
    ensures k <= Escape(v) <==> k <= v
  {
    if k != "" && v != "" {
      PlainPrefix(k[1..], v[1..]);
      assert EscapeChar(v[0])[0] == Escape(v)[0];
      if k[0] == v[0] {
        assert Escape(v)[1..] == Escape(v[1..]);
        assert k <= v <==> k[1..] <= v[1..];
        assert k <= Escape(v) <==> k[1..] <= Escape(v)[1..];
      }
    }
  }

  /** `k` would match from inside the escape of `c`. */
  predicate StartsInside(k: string, c: char)
    requires k != ""
  {
    var e := EscapeChar(c);
    |e| == 3 && (k[0] == e[2] || (k[0] == e[1] && (|k| < 2 || k[1] == e[2])))
  }

  /** No match begins inside an escape of `v`. */
  predicate Aligned(k: string, v: string)
    requires k != ""
  {
    forall i :: 0 <= i < |v| ==> !StartsInside(k, v[i])
  }

  lemma NoStartInside(k: string, c: char, rest: string)
    requires k != "" && Plain(k) && !Unreserved(c) && !StartsInside(k, c)
    ensures forall i :: 0 <= i < |EscapeChar(c)| ==> !(k <= EscapeChar(c)[i..] + rest)
  {
    var e := EscapeChar(c);
    forall i | 0 <= i < |e| ensures !(k <= e[i..] + rest) {
      assert (e[i..] + rest)[0] == e[i];
      if |e| == 3 && i == 1 { assert (e[1..] + rest)[1] == e[2]; }
    }
  }

  /** Replacing plain text commutes with escaping when no match begins inside an escape. */
  lemma {:induction false} EscapeReplace(v: string, k: string, n: string)
    requires k != "" && Plain(k) && Plain(n) && Aligned(k, v)
    ensures ReplaceAll(Escape(v), k, n) == Escape(ReplaceAll(v, k, n))
    decreases |v|
  {
    PlainPrefix(k, v);
    if k <= v {
      var t := v[|k|..];
      EscapeReplace(t, k, n);
      assert v == k + t;
      EscapeAppend(k, t);
      EscapeAppend(n, ReplaceAll(t, k, n));
      EscapePlain(k);
      EscapePlain(n);
      ReplaceHead(k, Escape(t), n);
    } else if v != "" {
      var t, e := v[1..], EscapeChar(v[0]);
      EscapeReplace(t, k, n);
      EscapeAppend([v[0]], ReplaceAll(t, k, n));
      assert Escape([v[0]]) == e by { assert [v[0]][1..] == "" && e + "" == e; }
      SkipEscape(v, k, n);
    }
  }

  /** The scan passes over the escape of the first character. */
  lemma SkipEscape(v: string, k: string, n: string)
    requires v != "" && k != "" && Plain(k) && Aligned(k, v) && !(k <= Escape(v))
    ensures ReplaceAll(Escape(v), k, n) == EscapeChar(v[0]) + ReplaceAll(Escape(v[1..]), k, n)
  {
    var e, rest := EscapeChar(v[0]), Escape(v[1..]);
    if |e| == 1 {
      assert [e[0]] == e;
      ReplaceNext(e[0], rest, k, n);
    } else {
      NoStartInside(k, v[0], rest);
      assert e[0..] == e && e[1..] == [e[1], e[2]] && e[2..] == [e[2]];
      SkipThree(e[0], e[1], e[2], rest, k, n);
      assert e == [e[0], e[1], e[2]];
    }
  }

  lemma SkipThree(a: char, b: char, c: char, rest: string, k: string, n: string)
    requires k != "" && !(k <= [a, b, c] + rest) && !(k <= [b, c] + rest) && !(k <= [c] + rest)
    ensures ReplaceAll([a, b, c] + rest, k, n) == [a, b, c] + ReplaceAll(rest, k, n)
  {
    assert [b, c] + rest == [b] + ([c] + rest);
    assert [a, b, c] + rest == [a] + ([b, c] + rest);
    ReplaceNext(c, rest, k, n);
    ReplaceNext(b, [c] + rest, k, n);
    ReplaceNext(a, [b, c] + rest, k, n);
  }

  lemma {:induction false} AlignedReplace(k: string, v: string, old_: string, new_: string)
    requires k != "" && old_ != "" && Aligned(k, v) && Plain(new_)
    ensures Aligned(k, ReplaceAll(v, old_, new_))
    decreases |v|
  {
    if old_ <= v {
      AlignedReplace(k, v[|old_|..], old_, new_);
    } else if v != "" {
      AlignedReplace(k, v[1..], old_, new_);
    }
  }

  /** Names and ids as they are in practice: URL-safe text, and an id of UUID length. */
  predicate UrlSafe(real_: Identity, fqdn: string) {
    Plain(real_.name) && Plain(real_.id) && |real_.id| == 36 && Plain(Label(fqdn))
  }

  /** Neither synthetic value can match from inside an escape of the volume's name. */
  predicate VolumeAligned(real_: Identity, fqdn: string, v: string) {
    Aligned(Synth(real_, fqdn).id, v) && Aligned(Synth(real_, fqdn).name, v)
  }

  lemma {:induction false} HexPlain(v: nat, n: nat)
    ensures Plain(Fnv.Hex(v, n))
  {
    if n > 0 { HexPlain(v / 16, n - 1); }
  }

  lemma SynthPlain(real_: Identity, fqdn: string)
    requires UrlSafe(real_, fqdn)
    ensures var syn := Synth(real_, fqdn);
            Plain(syn.id) && Plain(syn.name) && |syn.id| == 36 && |syn.name| > |real_.name| && !Free(syn.name, '-')
  {
    HexPlain(Fnv.Sum48(BytesOf(fqdn)), 12);
    assert Synth(real_, fqdn).name[|real_.name|] == '-';
  }

  lemma PlainFree(s: string, c: char)
    requires Plain(s) && !Unreserved(c)
    ensures Free(s, c)
  {
  }

  /** Neither synthetic value occurs in the parameter's key. */
  lemma KeyUntouched(real_: Identity, fqdn: string)
    requires UrlSafe(real_, fqdn)
    ensures !Contains(VOLUMES, Synth(real_, fqdn).id) && !Contains(VOLUMES, Synth(real_, fqdn).name)
  {
    SynthPlain(real_, fqdn);
    ContainsShort(VOLUMES, Synth(real_, fqdn).id);
    if Contains(VOLUMES, Synth(real_, fqdn).name) { ContainsChar(VOLUMES, Synth(real_, fqdn).name, '-'); }
  }

  /** One replacement in `key=value` for a name the key does not hold. */
  lemma ValueReplaced(key: string, value: string, k: string, n: string)
    requires k != "" && Plain(k) && !Contains(key, k)
    ensures ReplaceAll(key + ['='] + value, k, n) == key + ['='] + ReplaceAll(value, k, n)
  {
    PlainFree(k, '=');
    Across(key, value, k, n, '=');
    ReplaceAbsent(key, k, n);
  }

  /** The key of the parameter is never touched, and the value is rewritten as text. */
  lemma ValueRewritten(real_: Identity, fqdn: string, value: string)
    requires UrlSafe(real_, fqdn)
    ensures Request(real_, fqdn, VOLUMES + ['='] + value) == VOLUMES + ['='] + Request(real_, fqdn, value)
  {
    var syn := Synth(real_, fqdn);
    SynthPlain(real_, fqdn);
    KeyUntouched(real_, fqdn);
    ValueReplaced(VOLUMES, value, syn.id, real_.id);
    ValueReplaced(VOLUMES, ReplaceAll(value, syn.id, real_.id), syn.name, real_.name);
  }

  lemma OnlyPair(p: string, volume: string)
    requires p == Pair(VOLUMES, volume)
    ensures ValueIn([p], HOSTS) == "" && ValueIn([p], VOLUMES) == volume
  {
    KeysDiffer("", volume);
    assert [p] + [] == [p];
    ReadFirst(VOLUMES, volume, []);
    ReadNext(p, [], HOSTS);
  }

  lemma OnePair(volume: string)
    ensures Param(Pair(VOLUMES, volume), HOSTS) == "" && Param(Pair(VOLUMES, volume), VOLUMES) == volume
  {
    PairFree(VOLUMES, volume);
    SplitPrefix(Pair(VOLUMES, volume), "", '&');
    OnlyPair(Pair(VOLUMES, volume), volume);
  }

  // ---- escaped text stays escaped text ----

  /** The text of some escaped string: no character stands bare that would have been escaped, and no escape is idle. */
  predicate Canonical(e: string)
    decreases |e|
  {
    if e == "" then true
    else if e[0] == '%' then
      && |e| >= 3 && IsUpperHex(e[1]) && IsUpperHex(e[2])
      && EscapeChar((16 * UpperHexValue(e[1]) + UpperHexValue(e[2])) as char) == [e[0], e[1], e[2]]
      && Canonical(e[3..])
    else (Unreserved(e[0]) || e[0] as int >= 256 || e[0] == '+') && Canonical(e[1..])
  }

  lemma EscapedUnit(c: char)
    ensures var e := EscapeChar(c);
            if |e| == 1 then e[0] != '%' && (Unreserved(e[0]) || e[0] as int >= 256 || e[0] == '+')
            else |e| == 3 && e[0] == '%' && IsUpperHex(e[1]) && IsUpperHex(e[2])
                 && (16 * UpperHexValue(e[1]) + UpperHexValue(e[2])) as char == c
  {
  }

  lemma {:induction false} EscapeCanonical(v: string)
    ensures Canonical(Escape(v))
  {
    if v != "" {
      var e, rest := EscapeChar(v[0]), Escape(v[1..]);
      EscapeCanonical(v[1..]);
      EscapedUnit(v[0]);
      assert (e + rest)[|e|..] == rest && (e + rest)[0] == e[0];
      if |e| == 3 {
        assert (e + rest)[1] == e[1] && (e + rest)[2] == e[2];
        assert e == [e[0], e[1], e[2]];
      }
    }
  }

  /** Canonical text is the escape of what it decodes to. */
  lemma {:induction false} EscapeUnescape(e: string)
    requires Canonical(e)
    ensures Escape(Unescape(e)) == e
    decreases |e|
  {
    if e != "" {
      var n := if e[0] == '%' then 3 else 1;
      var v := Unescape(e);
      EscapeUnescape(e[n..]);
      assert v[1..] == Unescape(e[n..]);
      assert EscapeChar(v[0]) == e[..n];
      assert e == e[..n] + e[n..];
    }
  }

  lemma {:induction false} DropPlain(k: string, t: string)
    requires Plain(k) && Canonical(k + t)
    ensures Canonical(t)
  {
    if k == "" {
      assert k + t == t;
    } else {
      assert (k + t)[0] == k[0] && (k + t)[1..] == k[1..] + t;
      DropPlain(k[1..], t);
    }
  }

  lemma {:induction false} AddPlain(n: string, t: string)
    requires Plain(n) && Canonical(t)
    ensures Canonical(n + t)
  {
    if n == "" {
      assert n + t == t;
    } else {
      assert (n + t)[0] == n[0] && (n + t)[1..] == n[1..] + t;
      AddPlain(n[1..], t);
    }
  }

  /** The replacement keeps the hexadecimal digits its match begins with, as far as an escape reaches. */
  predicate KeepsHead(k: string, n: string)
    requires k != ""
  {
    IsUpperHex(k[0]) ==>
      |k| >= 2 && n != "" && n[0] == k[0] && (IsUpperHex(k[1]) ==> |n| >= 2 && n[1] == k[1])
  }

  lemma AddChar(c: char, t: string)
    requires Canonical(t) && (Unreserved(c) || c as int >= 256 || c == '+')
    ensures Canonical([c] + t)
  {
    assert ([c] + t)[0] == c && ([c] + t)[1..] == t;
  }

  predicate Unit(u: string) {
    && |u| == 3 && u[0] == '%' && IsUpperHex(u[1]) && IsUpperHex(u[2])
    && EscapeChar((16 * UpperHexValue(u[1]) + UpperHexValue(u[2])) as char) == u
  }

  lemma AddUnit(u: string, t: string)
    requires Unit(u) && Canonical(t)
    ensures Canonical(u + t)
  {
    assert (u + t)[0] == u[0] && (u + t)[1] == u[1] && (u + t)[2] == u[2] && (u + t)[3..] == t;
    assert u == [u[0], u[1], u[2]];
  }

  lemma TakeUnit(e: string)
    requires Canonical(e) && e != "" && e[0] == '%'
    ensures |e| >= 3 && Unit(e[..3]) && Canonical(e[3..]) && e == e[..3] + e[3..]
  {
    FirstThree(e);
  }

  lemma FirstThree(e: string)
    requires |e| >= 3
    ensures e[..3] == [e[0], e[1], e[2]] && e == e[..3] + e[3..]
  {
  }

  /** A replacement that keeps such digits leaves canonical text canonical, also where its match begins in an escape. */
  lemma {:induction false} CanonicalReplace(e: string, k: string, n: string)
    requires Canonical(e) && k != "" && Plain(k) && Plain(n) && KeepsHead(k, n)
    ensures Canonical(ReplaceAll(e, k, n))
    decreases |e|, 1
  {
    if k <= e {
      var t := e[|k|..];
      assert e == k + t;
      DropPlain(k, t);
      CanonicalReplace(t, k, n);
      ReplaceHead(k, t, n);
      AddPlain(n, ReplaceAll(t, k, n));
    } else if e != "" {
      if e[0] == '%' {
        TakeUnit(e);
        UnitReplace(e[..3], e[3..], k, n);
      } else {
        var t := e[1..];
        CanonicalReplace(t, k, n);
        assert e == [e[0]] + t;
        ReplaceNext(e[0], t, k, n);
        AddChar(e[0], ReplaceAll(t, k, n));
      }
    }
  }

  /** One escape and what follows: a match may begin at its first digit, at its second, or behind it. */
  lemma {:induction false} UnitReplace(u: string, t: string, k: string, n: string)
    requires Unit(u) && Canonical(t) && k != "" && Plain(k) && Plain(n) && KeepsHead(k, n)
    ensures Canonical(ReplaceAll(u + t, k, n))
    decreases |u + t|, 0
  {
    if k <= [u[1]] + ([u[2]] + t) {
      FirstDigit(u[1], u[2], t, k, n);
      DropPlain(k[2..], t[|k| - 2..]);
      CanonicalReplace(t[|k| - 2..], k, n);
      FromFirstDigit(u, t, k, n);
    } else if k <= [u[2]] + t {
      SecondDigit(u[2], t, k, n);
      DropPlain(k[1..], t[|k| - 1..]);
      CanonicalReplace(t[|k| - 1..], k, n);
      FromSecondDigit(u, t, k, n);
    } else {
      CanonicalReplace(t, k, n);
      FromBehind(u, t, k, n);
    }
  }

  lemma FromFirstDigit(u: string, t: string, k: string, n: string)
    requires Unit(u) && k != "" && Plain(k) && Plain(n) && KeepsHead(k, n) && k <= [u[1]] + ([u[2]] + t)
    requires 2 <= |k| <= |t| + 2 && Canonical(ReplaceAll(t[|k| - 2..], k, n))
    ensures Canonical(ReplaceAll(u + t, k, n))
  {
    FirstDigit(u[1], u[2], t, k, n);
    ReplaceFromFirst(u, t, k, n);
    UnitAndText(u, n, ReplaceAll(t[|k| - 2..], k, n));
  }

  lemma ReplaceFromFirst(u: string, t: string, k: string, n: string)
    requires |u| == 3 && u[0] == '%' && k != "" && k[0] != '%'
    ensures ReplaceAll(u + t, k, n) == ['%'] + ReplaceAll([u[1]] + ([u[2]] + t), k, n)
  {
    ThreeAndText(u, t);
    ReplaceNext('%', [u[1]] + ([u[2]] + t), k, n);
  }

  lemma FromSecondDigit(u: string, t: string, k: string, n: string)
    requires Unit(u) && k != "" && Plain(k) && Plain(n) && KeepsHead(k, n)
    requires !(k <= [u[1]] + ([u[2]] + t)) && k <= [u[2]] + t
    requires 1 <= |k| <= |t| + 1 && Canonical(ReplaceAll(t[|k| - 1..], k, n))
    ensures Canonical(ReplaceAll(u + t, k, n))
  {
    SecondDigit(u[2], t, k, n);
    ReplaceFromFirst(u, t, k, n);
    ReplaceNext(u[1], [u[2]] + t, k, n);
    DigitAndText(u, n, ReplaceAll(t[|k| - 1..], k, n));
  }

  lemma FromBehind(u: string, t: string, k: string, n: string)
    requires Unit(u) && k != "" && Plain(k)
    requires !(k <= [u[1]] + ([u[2]] + t)) && !(k <= [u[2]] + t) && Canonical(ReplaceAll(t, k, n))
    ensures Canonical(ReplaceAll(u + t, k, n))
  {
    ReplaceFromFirst(u, t, k, n);
    ReplaceNext(u[1], [u[2]] + t, k, n);
    ReplaceNext(u[2], t, k, n);
    AddUnit(u, ReplaceAll(t, k, n));
    ThreeAndText(u, ReplaceAll(t, k, n));
  }

  lemma ThreeAndText(u: string, r: string)
    requires |u| == 3
    ensures [u[0]] + ([u[1]] + ([u[2]] + r)) == u + r
  {
  }

  lemma UnitAndText(u: string, n: string, r: string)
    requires Unit(u) && Plain(n) && |n| >= 2 && n[0] == u[1] && n[1] == u[2] && Canonical(r)
    ensures Canonical(['%'] + (n + r))
  {
    AddPlain(n[2..], r);
    AddUnit(u, n[2..] + r);
    UnitRegrouped(u, n, r);
  }

  lemma UnitRegrouped(u: string, n: string, r: string)
    requires |u| == 3 && u[0] == '%' && |n| >= 2 && n[0] == u[1] && n[1] == u[2]
    ensures ['%'] + (n + r) == u + (n[2..] + r)
  {
    assert n == [u[1], u[2]] + n[2..] && u == ['%'] + [u[1], u[2]];
  }

  lemma DigitAndText(u: string, n: string, r: string)
    requires Unit(u) && Plain(n) && |n| >= 1 && n[0] == u[2] && Canonical(r)
    ensures Canonical(['%'] + ([u[1]] + (n + r)))
  {
    AddPlain(n[1..], r);
    AddUnit(u, n[1..] + r);
    DigitRegrouped(u, n, r);
  }

  lemma DigitRegrouped(u: string, n: string, r: string)
    requires |u| == 3 && u[0] == '%' && |n| >= 1 && n[0] == u[2]
    ensures ['%'] + ([u[1]] + (n + r)) == u + (n[1..] + r)
  {
    assert n == [u[2]] + n[1..] && u == ['%'] + ([u[1]] + [u[2]]);
  }

  lemma SplitAt(h: string, t: string, k: string)
    requires |h| <= |k| && k <= h + t
    ensures k[..|h|] == h && |k| - |h| <= |t| && t == k[|h|..] + t[|k| - |h|..]
    ensures h + t == k + t[|k| - |h|..]
  {
    var s, rest := h + t, t[|k| - |h|..];
    assert s[..|k|] == k;
    assert s[|h|..] == t;
    assert t[..|k| - |h|] == k[|h|..];
  }

  lemma FirstDigit(a: char, b: char, t: string, k: string, n: string)
    requires IsUpperHex(a) && IsUpperHex(b) && k != "" && KeepsHead(k, n) && k <= [a] + ([b] + t)
    ensures |k| >= 2 && |n| >= 2 && n[0] == a && n[1] == b && |k| - 2 <= |t| && t == k[2..] + t[|k| - 2..]
    ensures ReplaceAll([a] + ([b] + t), k, n) == n + ReplaceAll(t[|k| - 2..], k, n)
  {
    assert k[0] == ([a] + ([b] + t))[0] == a;
    assert [a] + ([b] + t) == [a, b] + t;
    SplitAt([a, b], t, k);
    assert k[1] == k[..2][1];
    ReplaceHead(k, t[|k| - 2..], n);
  }

  lemma SecondDigit(b: char, t: string, k: string, n: string)
    requires IsUpperHex(b) && k != "" && KeepsHead(k, n) && k <= [b] + t
    ensures |n| >= 1 && n[0] == b && |k| - 1 <= |t| && t == k[1..] + t[|k| - 1..]
    ensures ReplaceAll([b] + t, k, n) == n + ReplaceAll(t[|k| - 1..], k, n)
  {
    SplitAt([b], t, k);
    assert k[0] == k[..1][0];
    ReplaceHead(k, t[|k| - 1..], n);
  }

  /** The real values keep the beginning of the synthetic ones. */
  lemma SynthKeepsHead(real_: Identity, fqdn: string)
    requires UrlSafe(real_, fqdn)
    ensures var syn := Synth(real_, fqdn);
            syn.id != "" && syn.name != "" && KeepsHead(syn.id, real_.id) && KeepsHead(syn.name, real_.name)
  {
    var syn := Synth(real_, fqdn);
    SynthPlain(real_, fqdn);
    assert syn.id[0] == real_.id[0] && syn.id[1] == real_.id[1];
    assert syn.name[|real_.name|] == '-';
    if |real_.name| >= 1 { assert syn.name[0] == real_.name[0]; }
    if |real_.name| >= 2 { assert syn.name[1] == real_.name[1]; }
  }

  /** The rewritten value of a volume is again the escape of something. */
  lemma RequestCanonical(real_: Identity, fqdn: string, v: string)
    requires UrlSafe(real_, fqdn)
    ensures Canonical(Request(real_, fqdn, Escape(v)))
  {
    var syn := Synth(real_, fqdn);
    SynthPlain(real_, fqdn);
    SynthKeepsHead(real_, fqdn);
    EscapeCanonical(v);
    CanonicalReplace(Escape(v), syn.id, real_.id);
    CanonicalReplace(ReplaceAll(Escape(v), syn.id, real_.id), syn.name, real_.name);
  }

  // ---- exactly when the array is asked for the volume px named ----

  /** The array is asked for what the rewritten text of px's volume decodes to. */
  lemma ForwardedVolume(real_: Identity, fqdn: string, v: string)
    requires UrlSafe(real_, fqdn) && v != ""
    ensures var text := Request(real_, fqdn, Escape(v));
            Forwarded(Some(real_), fqdn, "", v) == Asked("", Unescape(text)) && Escape(Unescape(text)) == text
  {
    var text := Request(real_, fqdn, Escape(v));
    assert Pairs("", v) == [Pair(VOLUMES, v)];
    ValueRewritten(real_, fqdn, Escape(v));
    RequestCanonical(real_, fqdn, v);
    EscapeUnescape(text);
    assert AskText(Some(real_), fqdn, RawQuery("", v)) == Pair(VOLUMES, Unescape(text));
    OnePair(Unescape(text));
  }

  /** The query mentions a synthetic value if and only if the escaped volume does. */
  lemma QueryCleanExactly(real_: Identity, fqdn: string, v: string)
    requires UrlSafe(real_, fqdn) && v != ""
    ensures QueryClean(Some(real_), fqdn, "", v) <==> Clean(real_, fqdn, Escape(v))
  {
    var syn := Synth(real_, fqdn);
    SynthPlain(real_, fqdn);
    KeyUntouched(real_, fqdn);
    PlainFree(syn.id, '=');
    PlainFree(syn.name, '=');
    assert Pairs("", v) == [Pair(VOLUMES, v)];
    ContainsAcross(VOLUMES, Escape(v), syn.id, '=');
    ContainsAcross(VOLUMES, Escape(v), syn.name, '=');
  }

  /** The array is asked for the volume px named if and only if the query mentions neither synthetic value. */
  lemma ForwardsExactly(real_: Identity, fqdn: string, v: string)
    requires UrlSafe(real_, fqdn) && Synth(real_, fqdn).id != real_.id
    ensures Forwarded(Some(real_), fqdn, "", v) == Asked("", v) <==> QueryClean(Some(real_), fqdn, "", v)
  {
    var syn, e := Synth(real_, fqdn), Escape(v);
    SynthPlain(real_, fqdn);
    if v == "" {
      ContainsShort("", syn.id);
      ContainsShort("", syn.name);
      CleanForwards(Some(real_), fqdn, "", "");
    } else {
      ForwardedVolume(real_, fqdn, v);
      QueryCleanExactly(real_, fqdn, v);
      UnescapeEscape(v);
      if Clean(real_, fqdn, e) { UndoAbsent(real_, syn, e); } else { UndoPresent(real_, syn, e); }
    }
  }

  /** Where the escaped name holds the synthetic array name, the array is asked for another volume. */
  lemma EscapedNameMisleads(real_: Identity, fqdn: string, v: string, head: string)
    requires UrlSafe(real_, fqdn) && Synth(real_, fqdn).id != real_.id && v != ""
    requires Escape(v) == head + Synth(real_, fqdn).name
    ensures Forwarded(Some(real_), fqdn, "", v) != Asked("", v)
  {
    var name := Synth(real_, fqdn).name;
    assert (head + name)[|head|..] == name;
    ContainsAt(Escape(v), name, |head|);
    QueryCleanExactly(real_, fqdn, v);
    ForwardsExactly(real_, fqdn, v);
  }

  /** For one: a volume of a realm that bears the synthetic array name is taken for another. */
  lemma NameInVolume(real_: Identity, fqdn: string, realm: string)
    requires UrlSafe(real_, fqdn) && Synth(real_, fqdn).id != real_.id
    ensures var v := realm + "::" + Synth(real_, fqdn).name; Forwarded(Some(real_), fqdn, "", v) != Asked("", v)
  {
    var name := Synth(real_, fqdn).name;
    SynthPlain(real_, fqdn);
    EscapeAppend(realm + "::", name);
    EscapePlain(name);
    EscapedNameMisleads(real_, fqdn, realm + "::" + name, Escape(realm + "::"));
  }

  lemma ColonEscaped()
    ensures Escape([':']) == "%3" + ['A']
  {
    assert [':'][1..] == "" && EscapeChar(':') == ['%', '3', 'A'];
    assert EscapeChar(':') + "" == EscapeChar(':');
  }

  lemma ColonTail(realm: string, tail: string)
    requires Plain(tail)
    ensures Escape(realm + "::" + tail) == Escape(realm + ":") + "%3" + (['A'] + tail)
  {
    var head := realm + ":";
    TwoColons(realm, tail);
    EscapeAppend(head, [':'] + tail);
    EscapeAppend([':'], tail);
    EscapePlain(tail);
    ColonEscaped();
    FourParts(Escape(head), "%3", ['A'], tail);
  }

  lemma TwoColons(realm: string, tail: string)
    ensures realm + "::" + tail == realm + ":" + ([':'] + tail)
  {
  }

  lemma FourParts(a: string, b: string, c: string, d: string)
    ensures a + ((b + c) + d) == a + b + (c + d)
  {
  }

  /** For another: the escape of a colon ends in A, so an array name that begins with A can match from inside it. */
  lemma NameFromEscape(real_: Identity, fqdn: string, realm: string)
    requires UrlSafe(real_, fqdn) && Synth(real_, fqdn).id != real_.id && real_.name != "" && real_.name[0] == 'A'
    ensures var v := realm + "::" + Synth(real_, fqdn).name[1..]; Forwarded(Some(real_), fqdn, "", v) != Asked("", v)
  {
    var name := Synth(real_, fqdn).name;
    SynthPlain(real_, fqdn);
    assert name == ['A'] + name[1..];
    ColonTail(realm, name[1..]);
    EscapedNameMisleads(real_, fqdn, realm + "::" + name[1..], Escape(realm + ":") + "%3");
  }

  /** Such a volume's own name need not mention a synthetic value at all. */
  lemma CleanVolumeRewritten(id: string)
    requires UrlSafe(Identity("Array01", id), "lab") && Synth(Identity("Array01", id), "lab").id != id
    ensures var real_, v := Identity("Array01", id), "r::rray01-lab";
            Clean(real_, "lab", v) && Forwarded(Some(real_), "lab", "", v) != Asked("", v)
  {
    var real_ := Identity("Array01", id);
    LabLabel();
    WitnessName();
    assert Synth(real_, "lab").name == "Array01" + "-" + "lab";
    SynthPlain(real_, "lab");
    NameFromEscape(real_, "lab", "r");
    ContainsShort("r::rray01-lab", Synth(real_, "lab").id);
  }

  lemma WitnessName()
    ensures var name := "Array01" + "-" + "lab";
            "r::rray01-lab" == "r" + "::" + name[1..] && !Contains("r::rray01-lab", name)
  {
    var name, v := "Array01" + "-" + "lab", "r::rray01-lab";
    assert name[0] == 'A' && Free(v, 'A');
    if Contains(v, name) { ContainsChar(v, name, 'A'); }
  }

  lemma LabLabel()
    ensures Label("lab") == "lab"
  {
    assert Free("lab", '.');
    if Contains("lab", ".") {
      assert "."[0] == '.';
      ContainsChar("lab", ".", '.');
    }
  }

  // ---- when escaping does not matter ----

  lemma RequestEscaped(real_: Identity, fqdn: string, v: string)
    requires UrlSafe(real_, fqdn) && VolumeAligned(real_, fqdn, v)
    ensures Request(real_, fqdn, Escape(v)) == Escape(Request(real_, fqdn, v))
  {
    var syn := Synth(real_, fqdn);
    SynthPlain(real_, fqdn);
    EscapeReplace(v, syn.id, real_.id);
    AlignedReplace(syn.name, v, syn.id, real_.id);
    EscapeReplace(ReplaceAll(v, syn.id, real_.id), syn.name, real_.name);
  }

  /** When no match can begin inside an escape, the name is rewritten as if it stood there unescaped. */
  lemma AlignedVolume(real_: Identity, fqdn: string, v: string)
    requires UrlSafe(real_, fqdn) && VolumeAligned(real_, fqdn, v) && v != ""
    ensures Forwarded(Some(real_), fqdn, "", v) == Asked("", Request(real_, fqdn, v))
  {
    ForwardedVolume(real_, fqdn, v);
    RequestEscaped(real_, fqdn, v);
    UnescapeEscape(Request(real_, fqdn, v));
  }
}
