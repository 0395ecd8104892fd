/** The line parser for `multipath -ll`: two header forms, path lines, and everything else. */
module Multipath {
  import opened GoStrings
  import opened Options

  datatype MpMap = MpMap(name: string, wwid: string, dm: string, vendor: string, paths: seq<string>)

  // ---- regular expressions, as the scans they amount to ----

  datatype Class = NonSpace | Space | Hex | Digit | Lower

  /** \S \s [0-9a-fA-F] \d [a-z] */
  predicate In(c: char, k: Class) {
    match k
    case Space => Blank(c)
    case NonSpace => !Blank(c)
    case Hex => '0' <= c <= '9' || 'a' <= c <= 'f' || 'A' <= c <= 'F'
    case Digit => '0' <= c <= '9'
    case Lower => 'a' <= c <= 'z'
  }

  predicate Blank(c: char) { c == ' ' || c == '\t' || c == '\n' || c == '\r' || c == '\U{000C}' }

  predicate Word(c: char) { '0' <= c <= '9' || 'a' <= c <= 'z' || 'A' <= c <= 'Z' || c == '_' }

  /** The longest prefix in the class, and what is left. */
  function Take(s: string, k: Class): (string, string) {
    if s != "" && In(s[0], k) then var t := Take(s[1..], k); ([s[0]] + t.0, t.1) else ("", s)
  }

  /** \s+(dm-\d+)\s+(\S+) : the device-mapper name and the vendor. */
  function Tail(s: string): Option<(string, string)> {
    var (gap1, r1) := Take(s, Space);
    if gap1 == "" || !("dm-" <= r1) then None
    else
      var (minor, r2) := Take(r1[3..], Digit);
      var (gap2, r3) := Take(r2, Space);
      var (vendor, r4) := Take(r3, NonSpace);
      if minor == "" || gap2 == "" || vendor == "" then None else Some(("dm-" + minor, vendor))
  }

  /** ^(\S+)\s+\(([0-9a-fA-F]{20,})\)\s+(dm-\d+)\s+(\S+) */
  function AliasHeader(line: string): Option<MpMap> {
    var (name, r1) := Take(line, NonSpace);
    var (gap, r2) := Take(r1, Space);
    if name == "" || gap == "" || r2 == "" || r2[0] != '(' then None
    else
      var (wwid, r3) := Take(r2[1..], Hex);
      if |wwid| < 20 || r3 == "" || r3[0] != ')' then None
      else
        var t := Tail(r3[1..]);
        if t.None? then None else Some(MpMap(name, ToLower(wwid), t.value.0, t.value.1, []))
  }

  /** ^([0-9a-fA-F]{20,})\s+(dm-\d+)\s+(\S+) */
  function PlainHeader(line: string): Option<MpMap> {
    var (wwid, r1) := Take(line, Hex);
    if |wwid| < 20 then None
    else
      var t := Tail(r1);
      if t.None? then None else Some(MpMap(wwid, ToLower(wwid), t.value.0, t.value.1, []))
  }

  function HeaderOf(line: string): Option<MpMap> {
    if AliasHeader(line).Some? then AliasHeader(line) else PlainHeader(line)
  }

  /** `n` numbers with colons between them; what is left behind the last. */
  function Numbers(s: string, n: nat): Option<string>
    decreases n
  {
    var (d, r) := Take(s, Digit);
    if d == "" then None
    else if n <= 1 then Some(r)
    else if r != "" && r[0] == ':' then Numbers(r[1..], n - 1)
    else None
  }

  /** \d+:\d+:\d+:\d+\s+(sd[a-z]+)\b at the start of `s`. */
  function PathHere(s: string): Option<string> {
    var r := Numbers(s, 4);
    if r.None? then None
    else
      var (gap, r1) := Take(r.value, Space);
      if gap == "" || !("sd" <= r1) then None
      else
        var (letters, r2) := Take(r1[2..], Lower);
        if letters == "" || (r2 != "" && Word(r2[0])) then None else Some("sd" + letters)
  }

  /** The leftmost match; `boundary` tells whether a \b holds where `s` starts. */
  function FindPath(s: string, boundary: bool): Option<string> {
    if s == "" then None
    else if boundary && PathHere(s).Some? then PathHere(s)
    else FindPath(s[1..], !Word(s[0]))
  }

  function PathOf(line: string): Option<string> { FindPath(line, true) }

  // ---- the parser ----

  /** bufio.ScanLines: lines without their end, and no line after the last newline. */
  function ScanLines(text: string): seq<string> {
    var ps := Split(text, '\n');
    DropReturns(if ps[|ps| - 1] == "" then ps[..|ps| - 1] else ps)
  }

  function DropReturns(ls: seq<string>): (r: seq<string>)
    ensures |r| == |ls|
  {
    seq(|ls|, i requires 0 <= i < |ls| =>
      if ls[i] != "" && ls[i][|ls[i]| - 1] == '\r' then ls[i][..|ls[i]| - 1] else ls[i])
  }

  /** What a line is to the parser; the alias form is tried first, a path only when no header matched. */
  datatype Kind = HeaderLine(m: MpMap) | PathsLine(dev: string) | OtherLine

  function KindOf(line: string): Kind {
    if HeaderOf(line).Some? then HeaderLine(HeaderOf(line).value)
    else if PathOf(line).Some? then PathsLine(PathOf(line).value)
    else OtherLine
  }

  function Kinds(lines: seq<string>): (r: seq<Kind>)
    ensures |r| == |lines|
  {
    seq(|lines|, i requires 0 <= i < |lines| => KindOf(lines[i]))
  }

  function Pending(cur: Option<MpMap>): seq<MpMap> { if cur.Some? then [cur.value] else [] }

  /** Headers open maps, path lines go to the open map, and paths before the first header go nowhere. */
  function Group(cur: Option<MpMap>, ks: seq<Kind>): seq<MpMap>
    decreases |ks|
  {
    if ks == [] then Pending(cur)
    else
      match ks[0]
      case HeaderLine(m) => Pending(cur) + Group(Some(m), ks[1..])
      case PathsLine(dev) =>
        Group(if cur.Some? then Some(cur.value.(paths := cur.value.paths + [dev])) else None, ks[1..])
      case OtherLine => Group(cur, ks[1..])
  }

  function Parse(text: string): seq<MpMap> { Group(None, Kinds(ScanLines(text))) }

  method ParseMultipath(out: string) returns (maps: seq<MpMap>)
    ensures maps == Parse(out)
  {
    maps := ParseKinds(Kinds(ScanLines(out)));
  }

  /** The parser's loop, with `cur` the map still open. */
  method ParseKinds(ks: seq<Kind>) returns (maps: seq<MpMap>)
    ensures maps == Group(None, ks)
  {
    maps := [];
    var cur: Option<MpMap> := None;
    for i := 0 to |ks|
      invariant maps + Group(cur, ks[i..]) == Group(None, ks)
    {
      assert ks[i..][0] == ks[i] && ks[i..][1..] == ks[i + 1..];
      match ks[i]
      case HeaderLine(m) =>
        if cur.Some? { maps := maps + [cur.value]; }
        cur := Some(m);
      case PathsLine(dev) =>
        if cur.Some? { cur := Some(cur.value.(paths := cur.value.paths + [dev])); }
      case OtherLine =>
    }
    if cur.Some? { maps := maps + [cur.value]; }
  }

  // ---- the printer ----

  predicate All(s: string, k: Class) { forall i :: 0 <= i < |s| ==> In(s[i], k) }

  predicate Gap(s: string) { s != "" && All(s, Space) && Free(s, '\n') }

  /** The rest of a header line, behind the vendor. */
  predicate Rest(s: string) { s == "" || In(s[0], Space) }

  datatype Header =
    | Alias(name: string, gap: string, wwid: string, gap1: string, minor: string, gap2: string, vendor: string,
            rest: string)
    | Plain(wwid: string, gap1: string, minor: string, gap2: string, vendor: string, rest: string)
  {
    predicate Ok() {
      && |wwid| >= 20 && All(wwid, Hex) && Gap(gap1) && minor != "" && All(minor, Digit) && Gap(gap2)
      && vendor != "" && All(vendor, NonSpace) && Rest(rest)
      && (Alias? ==> name != "" && All(name, NonSpace) && Gap(gap))
    }

    function PrintedTail(): string { gap1 + ("dm-" + (minor + (gap2 + (vendor + rest)))) }

    function Printed(): string {
      if Alias? then name + (gap + ("(" + (wwid + (")" + PrintedTail())))) else wwid + PrintedTail()
    }

    function Map(): MpMap {
      MpMap(if Alias? then name else wwid, ToLower(wwid), "dm-" + minor, vendor, [])
    }
  }

  /** The characters multipath draws its tree with. */
  predicate Tree(s: string) {
    forall i :: 0 <= i < |s| ==> s[i] == ' ' || s[i] == '|' || s[i] == '`' || s[i] == '-' || s[i] == '+' || s[i] == '\\'
  }

  datatype Line =
    | PathLine(tree: string, hctl: seq<string>, gap: string, dev: string, rest: string)
    | NoiseLine(text: string)
  {
    predicate Ok() {
      match this
      case PathLine(tree, hctl, gap, dev, rest) =>
        && Tree(tree) && |hctl| == 4 && HctlOk(hctl)
        && Gap(gap) && |dev| > 2 && "sd" <= dev && All(dev[2..], Lower) && (rest == "" || !Word(rest[0]))
      case NoiseLine(text) => HeaderOf(text).None? && PathOf(text).None?
    }

    function Printed(): string {
      match this
      case PathLine(tree, hctl, gap, dev, rest) => tree + (PrintedHctl(hctl) + (gap + (dev + rest)))
      case NoiseLine(text) => text
    }
  }

  function PrintedHctl(hctl: seq<string>): string {
    if hctl == [] then "" else if |hctl| == 1 then hctl[0] else hctl[0] + (":" + PrintedHctl(hctl[1..]))
  }

  predicate HctlOk(hctl: seq<string>) { forall i :: 0 <= i < |hctl| ==> hctl[i] != "" && All(hctl[i], Digit) }

  /** A map as it is printed, or one whose header neither expression knows. */
  datatype Block = Block(header: Header, lines: seq<Line>) | Stray(text: string, lines: seq<Line>) {
    predicate Ok() {
      && (forall i :: 0 <= i < |lines| ==> lines[i].Ok())
      && if Block? then header.Ok() else HeaderOf(text).None? && PathOf(text).None?
    }

    function First(): string { if Block? then header.Printed() else text }

    function FirstKind(): Kind { if Block? then HeaderLine(header.Map()) else OtherLine }
  }

  function PrintedLines(ls: seq<Line>): seq<string> {
    if ls == [] then [] else [ls[0].Printed()] + PrintedLines(ls[1..])
  }

  /** Exactly the devices of the path lines, in order. */
  function Devs(ls: seq<Line>): seq<string> {
    if ls == [] then [] else (if ls[0].PathLine? then [ls[0].dev] else []) + Devs(ls[1..])
  }

  function PrintedBlocks(bs: seq<Block>): seq<string> {
    if bs == [] then [] else [bs[0].First()] + PrintedLines(bs[0].lines) + PrintedBlocks(bs[1..])
  }

  /** Each known map with exactly its own paths. */
  function Maps(bs: seq<Block>): seq<MpMap> {
    if bs == [] then []
    else (if bs[0].Block? then [bs[0].header.Map().(paths := Devs(bs[0].lines))] else []) + Maps(bs[1..])
  }

  // ---- proofs ----

  lemma {:induction false} TakeAppend(a: string, rest: string, k: Class)
    ensures Take(a, k).1 != "" ==> Take(a + rest, k) == (Take(a, k).0, Take(a, k).1 + rest)
    ensures Take(a, k).1 == "" && (rest == "" || !In(rest[0], k)) ==> Take(a + rest, k) == (a, rest)
    ensures Take(a, k).1 == "" <==> All(a, k)
    ensures Take(a, k).1 != "" ==> !In(Take(a, k).1[0], k)
    ensures forall c :: Free(a, c) ==> Free(Take(a, k).1, c)
  {
    if a == "" {
      assert a + rest == rest;
    } else {
      assert (a + rest)[0] == a[0] && (a + rest)[1..] == a[1..] + rest && a == [a[0]] + a[1..];
      TakeAppend(a[1..], rest, k);
    }
  }

  lemma TakeOf(a: string, rest: string, k: Class)
    requires All(a, k) && (rest == "" || !In(rest[0], k))
    ensures Take(a + rest, k) == (a, rest)
  {
    TakeAppend(a, rest, k);
  }

  lemma TailPrinted(h: Header)
    requires h.Ok()
    ensures Tail(h.PrintedTail()) == Some(("dm-" + h.minor, h.vendor))
  {
    var t3 := h.vendor + h.rest;
    var t2 := h.gap2 + t3;
    var t1 := h.minor + t2;
    assert t3[0] == h.vendor[0] && t2[0] == h.gap2[0];
    TakeOf(h.gap1, "dm-" + t1, Space);
    assert ("dm-" + t1)[3..] == t1 && "dm-" <= "dm-" + t1;
    TakeOf(h.minor, t2, Digit);
    TakeOf(h.gap2, t3, Space);
    TakeOf(h.vendor, h.rest, NonSpace);
  }

  lemma TailFirst(h: Header)
    requires h.Ok()
    ensures h.PrintedTail() != "" && In(h.PrintedTail()[0], Space)
  {
    assert h.PrintedTail()[0] == h.gap1[0];
  }

  lemma PlainPrinted(h: Header)
    requires h.Ok() && h.Plain?
    ensures PlainHeader(h.Printed()) == Some(h.Map())
  {
    TailPrinted(h);
    TailFirst(h);
    TakeOf(h.wwid, h.PrintedTail(), Hex);
  }

  lemma AliasPrinted(h: Header)
    requires h.Ok() && h.Alias?
    ensures AliasHeader(h.Printed()) == Some(h.Map())
  {
    TailPrinted(h);
    var close := ")" + h.PrintedTail();
    var open_ := "(" + (h.wwid + close);
    assert close[0] == ')' && close[1..] == h.PrintedTail();
    assert open_[0] == '(' && open_[1..] == h.wwid + close;
    assert (h.gap + open_)[0] == h.gap[0];
    TakeOf(h.name, h.gap + open_, NonSpace);
    TakeOf(h.gap, open_, Space);
    TakeOf(h.wwid, close, Hex);
  }

  lemma {:induction false} HexThenSpace(s: string)
    requires Take(s, Hex).1 != "" && In(Take(s, Hex).1[0], Space)
    ensures Take(s, NonSpace) == Take(s, Hex)
  {
    if s != "" && In(s[0], Hex) { HexThenSpace(s[1..]); }
  }

  lemma {:induction false} TakeHead(s: string, k: Class)
    ensures Take(s, k).0 != "" ==> s != "" && In(s[0], k)
  {
  }

  /** The two header forms never match the same line. */
  lemma FormsExclusive(line: string)
    ensures AliasHeader(line).None? || PlainHeader(line).None?
  {
    var r := Take(line, Hex).1;
    if Tail(r).Some? {
      TakeHead(r, Space);
      HexThenSpace(line);
      assert "dm-" <= Take(r, Space).1;
      assert Take(r, Space).1[0] == "dm-"[0];
    }
  }

  lemma HeaderPrinted(h: Header)
    requires h.Ok()
    ensures HeaderOf(h.Printed()) == Some(h.Map())
  {
    FormsExclusive(h.Printed());
    if h.Plain? { PlainPrinted(h); } else { AliasPrinted(h); }
  }

  lemma {:induction false} NumbersPrinted(hctl: seq<string>, rest: string)
    requires |hctl| >= 1 && HctlOk(hctl) && rest != "" && !In(rest[0], Digit)
    ensures Numbers(PrintedHctl(hctl) + rest, |hctl|) == Some(rest)
    decreases |hctl|
  {
    if |hctl| == 1 {
      TakeOf(hctl[0], rest, Digit);
    } else {
      var more := PrintedHctl(hctl[1..]) + rest;
      assert PrintedHctl(hctl) + rest == hctl[0] + (":" + more);
      TakeOf(hctl[0], ":" + more, Digit);
      assert (":" + more)[1..] == more;
      NumbersPrinted(hctl[1..], rest);
    }
  }

  lemma PathHerePrinted(l: Line)
    requires l.PathLine? && l.Ok()
    ensures PathHere(PrintedHctl(l.hctl) + (l.gap + (l.dev + l.rest))) == Some(l.dev)
  {
    var dev := l.dev + l.rest;
    var after := l.gap + dev;
    assert after[0] == l.gap[0] && dev[0] == l.dev[0] == 's';
    NumbersPrinted(l.hctl, after);
    TakeOf(l.gap, dev, Space);
    assert l.dev == l.dev[..2] + l.dev[2..];
    assert dev[..2] == l.dev[..2] == "sd" && dev[2..] == l.dev[2..] + l.rest;
    LetterEnd(l);
    TakeOf(l.dev[2..], l.rest, Lower);
  }

  lemma LetterEnd(l: Line)
    requires l.PathLine? && l.Ok()
    ensures l.rest == "" || !In(l.rest[0], Lower)
  {
  }

  lemma {:induction false} SkipTree(tree: string, s: string)
    requires Tree(tree) && s != "" && PathHere(s).Some?
    ensures FindPath(tree + s, true) == PathHere(s)
  {
    if tree == "" {
      assert tree + s == s;
    } else {
      assert (tree + s)[0] == tree[0] && !In(tree[0], Digit) && !Word(tree[0]);
      assert (tree + s)[1..] == tree[1..] + s;
      NoPathAt(tree + s);
      SkipTree(tree[1..], s);
    }
  }

  lemma NoPathAt(s: string)
    requires s != "" && !In(s[0], Digit)
    ensures PathHere(s) == None
  {
    TakeHead(s, Digit);
    assert Numbers(s, 4).None?;
  }

  lemma {:induction false} HctlPlain(hctl: seq<string>)
    requires |hctl| >= 1 && HctlOk(hctl)
    ensures Free(PrintedHctl(hctl), '(') && PrintedHctl(hctl) != ""
    decreases |hctl|
  {
    if |hctl| > 1 { HctlPlain(hctl[1..]); }
  }

  /** Where a parenthesis would have to open an alias header, a path line has none. */
  lemma NoAlias(a: string, rest: string)
    requires a != "" && In(a[|a| - 1], Space) && Free(a, '(') && rest != "" && !In(rest[0], Space) && rest[0] != '('
    ensures AliasHeader(a + rest) == None
  {
    TakeAppend(a, rest, NonSpace);
    var b := Take(a, NonSpace).1;
    assert b != "";
    TakeAppend(b, rest, Space);
    if Take(b, Space).1 != "" {
      assert Take(b, Space).1[0] != '(';
      assert (Take(b, Space).1 + rest)[0] == Take(b, Space).1[0];
    }
  }

  lemma PathNoPlain(l: Line)
    requires l.PathLine? && l.Ok()
    ensures PlainHeader(l.Printed()) == None
  {
    if l.tree != "" { TreeNoPlain(l); } else { HctlNoPlain(l); }
  }

  lemma TreeNoPlain(l: Line)
    requires l.PathLine? && l.Ok() && l.tree != ""
    ensures PlainHeader(l.Printed()) == None
  {
    var line := l.Printed();
    assert line[0] == l.tree[0];
    TakeHead(line, Hex);
  }

  lemma HctlNoPlain(l: Line)
    requires l.PathLine? && l.Ok() && l.tree == ""
    ensures PlainHeader(l.Printed()) == None
  {
    var more := ":" + (PrintedHctl(l.hctl[1..]) + (l.gap + (l.dev + l.rest)));
    assert l.Printed() == l.hctl[0] + more;
    NoTokenEnd(l.hctl[0], more);
  }

  lemma NoTokenEnd(a: string, more: string)
    requires All(a, Digit) && more != "" && more[0] == ':'
    ensures PlainHeader(a + more) == None
  {
    TakeOf(a, more, Hex);
    TakeHead(more, Space);
  }

  /** No path line is taken for a header. */
  lemma PathNoHeader(l: Line)
    requires l.PathLine? && l.Ok()
    ensures HeaderOf(l.Printed()) == None
  {
    HctlPlain(l.hctl);
    var a := l.tree + PrintedHctl(l.hctl) + l.gap;
    assert l.Printed() == a + (l.dev + l.rest);
    assert a[|a| - 1] == l.gap[|l.gap| - 1] && (l.dev + l.rest)[0] == l.dev[0] == "sd"[0];
    assert Free(l.gap, '(') && Free(l.tree, '(');
    NoAlias(a, l.dev + l.rest);
    PathNoPlain(l);
  }

  function KindOfLine(l: Line): Kind { if l.PathLine? then PathsLine(l.dev) else OtherLine }

  lemma LineClassified(l: Line)
    requires l.Ok()
    ensures KindOf(l.Printed()) == KindOfLine(l)
  {
    if l.PathLine? {
      PathNoHeader(l);
      PathHerePrinted(l);
      HctlPlain(l.hctl);
      SkipTree(l.tree, PrintedHctl(l.hctl) + (l.gap + (l.dev + l.rest)));
    }
  }

  /** The kinds of a printed block's lines. */
  function LineKinds(ls: seq<Line>): seq<Kind> {
    if ls == [] then [] else [KindOfLine(ls[0])] + LineKinds(ls[1..])
  }

  function BlockKinds(bs: seq<Block>): seq<Kind> {
    if bs == [] then [] else [bs[0].FirstKind()] + LineKinds(bs[0].lines) + BlockKinds(bs[1..])
  }

  predicate LinesOk(ls: seq<Line>) { forall i :: 0 <= i < |ls| ==> ls[i].Ok() }
  predicate BlocksOk(bs: seq<Block>) { forall i :: 0 <= i < |bs| ==> bs[i].Ok() }

  lemma KindsAppend(a: seq<string>, b: seq<string>)
    ensures Kinds(a + b) == Kinds(a) + Kinds(b)
  {
  }

  lemma {:induction false} PrintedLineKinds(ls: seq<Line>)
    requires LinesOk(ls)
    ensures Kinds(PrintedLines(ls)) == LineKinds(ls)
  {
    if ls != [] {
      LineClassified(ls[0]);
      PrintedLineKinds(ls[1..]);
      KindsAppend([ls[0].Printed()], PrintedLines(ls[1..]));
    }
  }

  /** Every printed line is recognised as what it was printed from. */
  lemma {:induction false} PrintedBlockKinds(bs: seq<Block>)
    requires BlocksOk(bs)
    ensures Kinds(PrintedBlocks(bs)) == BlockKinds(bs)
  {
    if bs != [] {
      assert bs[0].Ok();
      if bs[0].Block? { HeaderPrinted(bs[0].header); }
      PrintedLineKinds(bs[0].lines);
      PrintedBlockKinds(bs[1..]);
      var head, lines, rest := [bs[0].First()], PrintedLines(bs[0].lines), PrintedBlocks(bs[1..]);
      KindsAppend(head, lines);
      KindsAppend(head + lines, rest);
      assert PrintedBlocks(bs) == head + lines + rest;
      assert Kinds(head) == [bs[0].FirstKind()];
    }
  }

  lemma GroupNext(cur: MpMap, kind: Kind, rest: seq<Kind>)
    requires !kind.HeaderLine?
    ensures Group(Some(cur), [kind] + rest)
         == Group(Some(if kind.PathsLine? then cur.(paths := cur.paths + [kind.dev]) else cur), rest)
  {
    assert ([kind] + rest)[1..] == rest;
  }

  lemma FirstLine(ls: seq<Line>, more: seq<Kind>)
    requires ls != []
    ensures LineKinds(ls) + more == [KindOfLine(ls[0])] + (LineKinds(ls[1..]) + more)
  {
  }

  lemma MorePaths(cur: MpMap, ls: seq<Line>)
    requires ls != []
    ensures var next := if ls[0].PathLine? then cur.(paths := cur.paths + [ls[0].dev]) else cur;
            next.(paths := next.paths + Devs(ls[1..])) == cur.(paths := cur.paths + Devs(ls))
  {
    var own := if ls[0].PathLine? then [ls[0].dev] else [];
    assert Devs(ls) == own + Devs(ls[1..]);
    Regroup(cur.paths, own, Devs(ls[1..]));
  }

  lemma Regroup(a: seq<string>, b: seq<string>, c: seq<string>)
    ensures (a + b) + c == a + (b + c) && a + [] == a
  {
  }

  lemma {:induction false} GroupLines(cur: MpMap, ls: seq<Line>, more: seq<Kind>)
    ensures Group(Some(cur), LineKinds(ls) + more) == Group(Some(cur.(paths := cur.paths + Devs(ls))), more)
    decreases |ls|
  {
    if ls == [] {
      assert LineKinds(ls) + more == more && cur.paths + Devs(ls) == cur.paths;
    } else {
      FirstLine(ls, more);
      GroupNext(cur, KindOfLine(ls[0]), LineKinds(ls[1..]) + more);
      GroupLines(if ls[0].PathLine? then cur.(paths := cur.paths + [ls[0].dev]) else cur, ls[1..], more);
      MorePaths(cur, ls);
    }
  }

  /** Lines before the first header count for nothing, even path lines. */
  lemma {:induction false} GroupPreamble(pre: seq<Kind>, more: seq<Kind>)
    requires forall i :: 0 <= i < |pre| ==> !pre[i].HeaderLine?
    ensures Group(None, pre + more) == Group(None, more)
    decreases |pre|
  {
    if pre == [] {
      assert pre + more == more;
    } else {
      assert (pre + more)[0] == pre[0] && (pre + more)[1..] == pre[1..] + more;
      GroupPreamble(pre[1..], more);
    }
  }

  function AddPaths(cur: Option<MpMap>, devs: seq<string>): Option<MpMap> {
    if cur.Some? then Some(cur.value.(paths := cur.value.paths + devs)) else None
  }

  /** Where the parser files the paths: under an unknown header they go to the map still open. */
  function Filed(cur: Option<MpMap>, bs: seq<Block>): seq<MpMap>
    decreases |bs|
  {
    if bs == [] then Pending(cur)
    else if bs[0].Block? then Pending(cur) + Filed(Some(bs[0].header.Map().(paths := Devs(bs[0].lines))), bs[1..])
    else Filed(AddPaths(cur, Devs(bs[0].lines)), bs[1..])
  }

  lemma {:induction false} NoHeaders(ls: seq<Line>)
    ensures forall i :: 0 <= i < |LineKinds(ls)| ==> !LineKinds(ls)[i].HeaderLine?
  {
    if ls != [] { NoHeaders(ls[1..]); }
  }

  lemma GroupUnder(cur: Option<MpMap>, ls: seq<Line>, more: seq<Kind>)
    ensures Group(cur, LineKinds(ls) + more) == Group(AddPaths(cur, Devs(ls)), more)
  {
    if cur.Some? {
      GroupLines(cur.value, ls, more);
    } else {
      NoHeaders(ls);
      GroupPreamble(LineKinds(ls), more);
    }
  }

  lemma {:induction false} GroupBlocks(cur: Option<MpMap>, bs: seq<Block>)
    ensures Group(cur, BlockKinds(bs)) == Filed(cur, bs)
    decreases |bs|
  {
    if bs != [] {
      var ls, rest := bs[0].lines, BlockKinds(bs[1..]);
      assert BlockKinds(bs) == [bs[0].FirstKind()] + (LineKinds(ls) + rest);
      assert ([bs[0].FirstKind()] + (LineKinds(ls) + rest))[1..] == LineKinds(ls) + rest;
      var open_ := if bs[0].Block? then Some(bs[0].header.Map()) else cur;
      GroupUnder(open_, ls, rest);
      GroupBlocks(AddPaths(open_, Devs(ls)), bs[1..]);
      if bs[0].Block? { assert [] + Devs(ls) == Devs(ls); }
    }
  }

  /** The map that was open keeps its place and its paths. */
  lemma {:induction false} FirstFiled(m: MpMap, bs: seq<Block>)
    ensures |Filed(Some(m), bs)| >= 1 && |Filed(Some(m), bs)[0].paths| >= |m.paths|
    decreases |bs|
  {
    if bs != [] && bs[0].Stray? { FirstFiled(m.(paths := m.paths + Devs(bs[0].lines)), bs[1..]); }
  }

  /** No path line behind an unknown header while a map is open. */
  predicate NoMisfile(open_: bool, bs: seq<Block>)
    decreases |bs|
  {
    bs != [] ==>
      if bs[0].Block? then NoMisfile(true, bs[1..])
      else (open_ ==> Devs(bs[0].lines) == []) && NoMisfile(open_, bs[1..])
  }

  lemma {:induction false} FiledExactly(cur: Option<MpMap>, bs: seq<Block>)
    ensures Filed(cur, bs) == Pending(cur) + Maps(bs) <==> NoMisfile(cur.Some?, bs)
    decreases |bs|
  {
    if bs != [] {
      var devs, rest := Devs(bs[0].lines), bs[1..];
      if bs[0].Block? {
        var m := bs[0].header.Map().(paths := devs);
        FiledExactly(Some(m), rest);
        CancelPrefix(Pending(cur), Filed(Some(m), rest), [m] + Maps(rest));
      } else {
        FiledExactly(AddPaths(cur, devs), rest);
        assert [] + Maps(rest) == Maps(rest);
        if cur.Some? {
          if devs == [] {
            assert cur.value.paths + devs == cur.value.paths;
          } else {
            FirstFiled(AddPaths(cur, devs).value, rest);
            assert (Pending(cur) + Maps(rest))[0] == cur.value;
          }
        }
      }
    }
  }

  lemma CancelPrefix(a: seq<MpMap>, b: seq<MpMap>, c: seq<MpMap>)
    ensures a + b == a + c <==> b == c
  {
    assert (a + b)[|a|..] == b && (a + c)[|a|..] == c;
  }

  /** No path line follows an unknown header anywhere behind a known one. */
  predicate NoneMisfiled(bs: seq<Block>) {
    forall i, j :: 0 <= i < j < |bs| && bs[i].Block? && bs[j].Stray? ==> Devs(bs[j].lines) == []
  }

  predicate NoStrayPaths(bs: seq<Block>) { forall j :: 0 <= j < |bs| && bs[j].Stray? ==> Devs(bs[j].lines) == [] }

  lemma {:induction false} OpenMisfile(bs: seq<Block>)
    ensures NoMisfile(true, bs) <==> NoStrayPaths(bs)
  {
    if bs != [] {
      OpenMisfile(bs[1..]);
      assert bs == [bs[0]] + bs[1..];
    }
  }

  lemma {:induction false} MisfileExactly(bs: seq<Block>)
    ensures NoMisfile(false, bs) <==> NoneMisfiled(bs)
  {
    if bs != [] {
      var rest := bs[1..];
      MisfileExactly(rest);
      OpenMisfile(rest);
      assert forall i :: 0 <= i < |rest| ==> rest[i] == bs[i + 1];
      if bs[0].Block? {
        assert NoStrayPaths(rest) ==> NoneMisfiled(bs);
        if NoneMisfiled(bs) {
          forall j | 0 <= j < |rest| && rest[j].Stray? ensures Devs(rest[j].lines) == [] {
            assert bs[j + 1] == rest[j];
          }
        }
      } else {
        if NoneMisfiled(bs) {
          forall i, j | 0 <= i < j < |rest| && rest[i].Block? && rest[j].Stray? ensures Devs(rest[j].lines) == [] {
            assert bs[i + 1].Block? && bs[j + 1].Stray?;
          }
        }
        assert NoneMisfiled(rest) ==> NoneMisfiled(bs);
      }
    }
  }

  predicate OneLine(s: string) { Free(s, '\n') && (s == "" || s[|s| - 1] != '\r') }
  predicate Lines(ls: seq<string>) { forall i :: 0 <= i < |ls| ==> OneLine(ls[i]) }

  /** Each line with a newline behind it. */
  function Unlines(ls: seq<string>): string { if ls == [] then "" else Join(ls + [""], '\n') }

  lemma ScanUnlines(ls: seq<string>)
    requires Lines(ls)
    ensures ScanLines(Unlines(ls)) == ls
  {
    if ls != [] {
      var ps := ls + [""];
      assert AllFree(ps, '\n') by {
        forall i | 0 <= i < |ps| ensures Free(ps[i], '\n') { assert i < |ls| ==> OneLine(ls[i]); }
      }
      SplitJoin(ps, '\n');
      assert ps[..|ps| - 1] == ls;
      forall i | 0 <= i < |ls| ensures DropReturns(ls)[i] == ls[i] { assert OneLine(ls[i]); }
      assert DropReturns(ls) == ls;
    }
  }

  /**
   The parser inverts the printer: from the text of any maps, in either header form, with any noise lines between and
   before them, come the known maps with lower-cased ids and exactly their own paths in order, if and only if no path
   line follows an unknown header somewhere behind a known one.
   */
  lemma ParseInvertsPrint(pre: seq<string>, bs: seq<Block>)
    requires BlocksOk(bs) && Lines(pre + PrintedBlocks(bs))
    requires forall i :: 0 <= i < |pre| ==> HeaderOf(pre[i]).None?
    ensures Parse(Unlines(pre + PrintedBlocks(bs))) == Maps(bs) <==> NoneMisfiled(bs)
  {
    ParseFiles(pre, bs);
    FiledExactly(None, bs);
    assert Pending(None) + Maps(bs) == Maps(bs);
    MisfileExactly(bs);
  }

  /** What the parser makes of the text in every case. */
  lemma ParseFiles(pre: seq<string>, bs: seq<Block>)
    requires BlocksOk(bs) && Lines(pre + PrintedBlocks(bs))
    requires forall i :: 0 <= i < |pre| ==> HeaderOf(pre[i]).None?
    ensures Parse(Unlines(pre + PrintedBlocks(bs))) == Filed(None, bs)
  {
    ScanUnlines(pre + PrintedBlocks(bs));
    KindsAppend(pre, PrintedBlocks(bs));
    PrintedBlockKinds(bs);
    forall i | 0 <= i < |pre| ensures !Kinds(pre)[i].HeaderLine? { assert HeaderOf(pre[i]).None?; }
    GroupPreamble(Kinds(pre), BlockKinds(bs));
    GroupBlocks(None, bs);
  }

  /** A header the expressions do not know does not close the map before it: the paths behind it go there. */
  lemma UnknownHeaderMisfiles(known: Block, unknown: Block)
    requires known.Block? && unknown.Stray?
    ensures Filed(None, [known, unknown]) == [known.header.Map().(paths := Devs(known.lines) + Devs(unknown.lines))]
    ensures Filed(None, [known, unknown]) == Maps([known, unknown]) <==> Devs(unknown.lines) == []
  {
    var bs := [known, unknown];
    assert bs[1..] == [unknown] && bs[1..][1..] == [];
    var m := known.header.Map().(paths := Devs(known.lines));
    assert Filed(Some(m), [unknown]) == Filed(AddPaths(Some(m), Devs(unknown.lines)), []);
    assert [unknown][1..] == [] && Maps([unknown]) == [];
    assert Maps(bs) == [m];
    var full := m.(paths := Devs(known.lines) + Devs(unknown.lines));
    assert [full][0] == full && [m][0] == m;
    if Devs(unknown.lines) == [] { assert full.paths == m.paths; } else { assert |full.paths| > |m.paths|; }
  }
}
