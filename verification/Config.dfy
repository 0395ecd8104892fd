/** The static host map: one mapping per Kubernetes node, with its comma-separated initiator lists. */
module Config {
  import opened GoStrings

  datatype HostMapping = HostMapping(node: string, arrayHost: string,
                                     iqns: string, wwns: string, nqns: string, legacyIqn: string)

  datatype Initiator = Initiator(field: string, vals: seq<string>)

  function NonEmpty(xs: seq<string>): seq<string> {
    if xs == [] then [] else (if xs[0] == "" then [] else [xs[0]]) + NonEmpty(xs[1..])
  }

  function TrimEach(xs: seq<string>): (r: seq<string>)
    ensures |r| == |xs|
  {
    seq(|xs|, i requires 0 <= i < |xs| => TrimSpace(xs[i]))
  }

  /** The trimmed, non-empty pieces between the commas. */
  function Csv(s: string): seq<string> { NonEmpty(TrimEach(Split(s, ','))) }

  method SplitCSV(s: string) returns (out: seq<string>)
    ensures out == Csv(s)
  {
    var pieces := Split(s, ',');
    out := [];
    for i := 0 to |pieces|
      invariant out == NonEmpty(TrimEach(pieces)[..i])
    {
      var p := TrimSpace(pieces[i]);
      NonEmptyAppend(TrimEach(pieces)[..i], p);
      assert TrimEach(pieces)[..i + 1] == TrimEach(pieces)[..i] + [p];
      if p != "" {
        out := out + [p];
      }
    }
    assert TrimEach(pieces)[..|pieces|] == TrimEach(pieces);
  }

  lemma {:induction false} NonEmptyAppend(xs: seq<string>, p: string)
    ensures NonEmpty(xs + [p]) == NonEmpty(xs) + if p == "" then [] else [p]
  {
    if xs == [] {
      assert xs + [p] == [p];
    } else {
      assert (xs + [p])[1..] == xs[1..] + [p];
      NonEmptyAppend(xs[1..], p);
    }
  }

  function IqnsOf(h: HostMapping): seq<string> { if Csv(h.iqns) == [] then Csv(h.legacyIqn) else Csv(h.iqns) }

  /** iSCSI, FC, NVMe, in this order; transports without identifiers are left out. */
  function InitiatorsOf(h: HostMapping): seq<Initiator> {
    Configured([Initiator("iqns", IqnsOf(h)), Initiator("wwns", Csv(h.wwns)), Initiator("nqns", Csv(h.nqns))])
  }

  function Configured(ins: seq<Initiator>): seq<Initiator> {
    if ins == [] then [] else (if ins[0].vals == [] then [] else [ins[0]]) + Configured(ins[1..])
  }

  method Initiators(h: HostMapping) returns (out: seq<Initiator>)
    ensures out == InitiatorsOf(h)
  {
    var iqns := SplitCSV(h.iqns);
    if |iqns| == 0 {
      iqns := SplitCSV(h.legacyIqn);
    }
    var wwns := SplitCSV(h.wwns);
    var nqns := SplitCSV(h.nqns);
    var all := [Initiator("iqns", iqns), Initiator("wwns", wwns), Initiator("nqns", nqns)];
    out := KeepConfigured(all);
  }

  method KeepConfigured(all: seq<Initiator>) returns (out: seq<Initiator>)
    ensures out == Configured(all)
  {
    out := [];
    var i := 0;
    while i < |all|
      invariant i <= |all|
      invariant out + Configured(all[i..]) == Configured(all)
    {
      assert all[i..][1..] == all[i + 1..];
      assert Configured(all[i..]) == (if all[i].vals == [] then [] else [all[i]]) + Configured(all[i + 1..]);
      if |all[i].vals| > 0 {
        out := out + [all[i]];
      }
      i := i + 1;
    }
  }

  predicate Blank(s: string) { forall i :: 0 <= i < |s| ==> IsSpace(s[i]) }

  /** One printed list entry: a value with white space around it. */
  datatype Entry = Entry(left: string, value: string, right: string) {
    predicate Ok() { Blank(left) && Blank(right) && Trimmed(value) && Free(value, ',') }
    function Printed(): string { left + value + right }
  }

  predicate EntriesOk(es: seq<Entry>) { forall i :: 0 <= i < |es| ==> es[i].Ok() }

  function PrintedEntries(es: seq<Entry>): (r: seq<string>)
    ensures |r| == |es|
  {
    seq(|es|, i requires 0 <= i < |es| => es[i].Printed())
  }

  function Values(es: seq<Entry>): (r: seq<string>)
    ensures |r| == |es|
  {
    seq(|es|, i requires 0 <= i < |es| => es[i].value)
  }

  lemma {:induction false} TrimLeftBlank(l: string, s: string)
    requires Blank(l)
    ensures TrimLeft(l + s) == TrimLeft(s)
  {
    if l == "" {
      assert l + s == s;
    } else {
      assert (l + s)[1..] == l[1..] + s && (l + s)[0] == l[0];
      TrimLeftBlank(l[1..], s);
    }
  }

  lemma {:induction false} TrimRightBlank(s: string, r: string)
    requires Blank(r)
    ensures TrimRight(s + r) == TrimRight(s)
    decreases |r|
  {
    if r == "" {
      assert s + r == s;
    } else {
      var n := |s + r| - 1;
      assert (s + r)[..n] == s + r[..|r| - 1] && (s + r)[n] == r[|r| - 1];
      TrimRightBlank(s, r[..|r| - 1]);
    }
  }

  lemma TrimPadded(l: string, x: string, r: string)
    requires Blank(l) && Blank(r) && Trimmed(x)
    ensures TrimSpace(l + x + r) == x
  {
    assert l + x + r == l + (x + r);
    TrimLeftBlank(l, x + r);
    if x == "" {
      TrimLeftBlank(r, "");
      assert x + r == r == r + "";
    } else {
      assert (x + r)[0] == x[0];
      TrimRightBlank(x, r);
    }
  }

  /**
   Splitting undoes joining with commas, whatever white space surrounds the values; blank entries
   vanish.
   */
  lemma SplitUndoesJoin(es: seq<Entry>)
    requires |es| >= 1 && EntriesOk(es)
    ensures Csv(Join(PrintedEntries(es), ',')) == NonEmpty(Values(es))
  {
    var ps := PrintedEntries(es);
    forall i | 0 <= i < |es| ensures Free(ps[i], ',') && TrimEach(ps)[i] == es[i].value {
      assert es[i].Ok();
      TrimPadded(es[i].left, es[i].value, es[i].right);
    }
    SplitJoin(ps, ',');
    assert TrimEach(ps) == Values(es);
  }

  /** Every value a list yields is trimmed, non-empty and comma-free; such values are kept as they are. */
  lemma {:induction false} NonEmptyOf(xs: seq<string>)
    ensures forall x :: x in NonEmpty(xs) <==> x in xs && x != ""
    ensures (forall i :: 0 <= i < |xs| ==> xs[i] != "") ==> NonEmpty(xs) == xs
  {
    if xs != [] {
      NonEmptyOf(xs[1..]);
      assert xs == [xs[0]] + xs[1..];
    }
  }
}
