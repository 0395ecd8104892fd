/**
 The one theory of text rewriting behind the shim: a body is read as the pieces between its quote
 characters. Replacing a quoted name acts on whole pieces, replacing a quote-free name acts inside
 pieces (an unescaped quote delimits a JSON string: section 7 of RFC 8259).
 */
module QuotedText {
  import opened GoStrings

  const QUOTE: char := '"'

  function Quoted(k: string): string { [QUOTE] + k + [QUOTE] }
  function Pieces(s: string): seq<string> { Split(s, QUOTE) }
  function Text(ps: seq<string>): string requires |ps| >= 1 { Join(ps, QUOTE) }

  /**
   What ReplaceAll of a quoted name does, piece by piece. A match takes both quotes around the piece,
   so the piece after it has lost its opening quote and stays.
   */
  function PieceReplace(ps: seq<string>, k: string, v: string): seq<string> {
    if |ps| < 3 then ps
    else if ps[1] == k then [ps[0], v] + PieceReplace(ps[2..], k, v)
    else [ps[0]] + PieceReplace(ps[1..], k, v)
  }

  /** Piece `i` is replaced: it stands between two quotes, equals `k`, and the piece before it was not replaced. */
  predicate Hit(ps: seq<string>, k: string, i: nat) {
    1 <= i < |ps| - 1 && ps[i] == k && !Hit(ps, k, i - 1)
  }

  /** All names of `m` replaced at once; no order of the names is involved. */
  function MapBack(ps: seq<string>, m: map<string, string>): (r: seq<string>)
    ensures |r| == |ps|
  {
    seq(|ps|, i requires 0 <= i < |ps| => if ps[i] in m && Hit(ps, ps[i], i) then m[ps[i]] else ps[i])
  }

  /** Every piece that is a name of `m` is exchanged, wherever it stands. */
  function TokenMap(ps: seq<string>, m: map<string, string>): (r: seq<string>)
    ensures |r| == |ps|
  {
    seq(|ps|, i requires 0 <= i < |ps| => if ps[i] in m then m[ps[i]] else ps[i])
  }

  function InsidePieces(ps: seq<string>, old_: string, new_: string): (r: seq<string>)
    requires old_ != ""
    ensures |r| == |ps|
  {
    seq(|ps|, i requires 0 <= i < |ps| => ReplaceAll(ps[i], old_, new_))
  }

  lemma {:induction false} SkipFreePrefix(a: string, rest: string, k: string, n: string)
    requires Free(a, QUOTE)
    ensures ReplaceAll(a + rest, Quoted(k), n) == a + ReplaceAll(rest, Quoted(k), n)
  {
    if a == "" {
      assert a + rest == rest;
    } else {
      assert (a + rest)[0] == a[0] != Quoted(k)[0];
      assert (a + rest)[1..] == a[1..] + rest;
      SkipFreePrefix(a[1..], rest, k, n);
    }
  }

  /** A prefix without the separator ends before it. */
  lemma FreePrefix(a: string, rest: string, k: string, c: char)
    requires Free(k, c)
    ensures k <= a + [c] + rest <==> k <= a
  {
    var s := a + [c] + rest;
    assert s[|a|] == c;
    assert s[..|a|] == a;
    assert k <= s ==> forall j :: 0 <= j < |k| ==> s[j] == k[j];
    assert k <= a ==> forall j :: 0 <= j < |k| ==> s[j] == k[j];
  }

  lemma FreePrefixQuote(k: string, a: string)
    requires k + [QUOTE] <= a
    ensures !Free(a, QUOTE)
  {
    assert a[|k|] == (k + [QUOTE])[|k|];
  }

  /** Between quote-free strings, the first quote decides the prefix. */
  lemma FirstQuote(a: string, rest: string, k: string)
    requires Free(k, QUOTE) && Free(a, QUOTE)
    ensures k + [QUOTE] <= a + [QUOTE] + rest <==> k == a
    ensures !(k + [QUOTE] <= a)
  {
    if k + [QUOTE] <= a { FreePrefixQuote(k, a); }
    var s, t := a + [QUOTE] + rest, k + [QUOTE];
    assert s[|a|] == QUOTE == t[|k|];
    assert s[..|a|] == a && t[..|k|] == k;
    assert t <= s ==> forall j :: 0 <= j < |t| ==> s[j] == t[j];
    assert k == a ==> s == t + rest;
  }

  lemma {:induction false} PrefixOfJoin(ps: seq<string>, k: string)
    requires |ps| >= 1 && AllFree(ps, QUOTE) && Free(k, QUOTE)
    ensures k + [QUOTE] <= Text(ps) <==> |ps| >= 2 && ps[0] == k
    ensures |ps| >= 2 ==> Text(ps)[|ps[0]| + 1..] == Text(ps[1..])
  {
    if |ps| >= 2 {
      FirstQuote(ps[0], Text(ps[1..]), k);
    } else {
      FirstQuote(ps[0], "", k);
    }
  }

  lemma ConsPrefix(a: string, b: string)
    ensures [QUOTE] + a <= [QUOTE] + b <==> a <= b
  {
    assert ([QUOTE] + b)[1..] == b && ([QUOTE] + a)[1..] == a;
    assert |a| <= |b| ==> ([QUOTE] + b)[..|a| + 1] == [QUOTE] + b[..|a|];
    assert |a| <= |b| ==> ([QUOTE] + b[..|a|])[1..] == b[..|a|];
  }

  /** What ReplaceAll does when it stands on a quote: `tail` is the text behind that quote. */
  lemma AtQuote(ps: seq<string>, k: string, n: string)
    requires |ps| >= 1 && AllFree(ps, QUOTE) && Free(k, QUOTE)
    ensures |ps| >= 2 && ps[0] == k ==>
              ReplaceAll([QUOTE] + Text(ps), Quoted(k), n) == n + ReplaceAll(Text(ps[1..]), Quoted(k), n)
    ensures !(|ps| >= 2 && ps[0] == k) ==>
              ReplaceAll([QUOTE] + Text(ps), Quoted(k), n) == [QUOTE] + ReplaceAll(Text(ps), Quoted(k), n)
  {
    var rest := [QUOTE] + Text(ps);
    PrefixOfJoin(ps, k);
    ConsPrefix(k + [QUOTE], Text(ps));
    assert Quoted(k) == [QUOTE] + (k + [QUOTE]);
    assert rest[1..] == Text(ps);
    assert |k| + 2 <= |rest| ==> rest[|k| + 2..] == Text(ps)[|k| + 1..];
  }

  /** Text replacement of a quoted name is replacement of whole pieces. */
  lemma {:induction false} QuotedReplace(ps: seq<string>, k: string, v: string)
    requires |ps| >= 1 && AllFree(ps, QUOTE) && Free(k, QUOTE)
    ensures |PieceReplace(ps, k, v)| == |ps|
    ensures ReplaceAll(Text(ps), Quoted(k), Quoted(v)) == Text(PieceReplace(ps, k, v))
    decreases |ps|
  {
    var n := Quoted(v);
    if |ps| == 1 {
      SkipFreePrefix(ps[0], "", k, n);
      assert ps[0] + "" == ps[0];
    } else {
      SkipFreePrefix(ps[0], [QUOTE] + Text(ps[1..]), k, n);
      assert Text(ps) == ps[0] + ([QUOTE] + Text(ps[1..]));
      AtQuote(ps[1..], k, n);
      if |ps| >= 3 && ps[1] == k {
        QuotedReplace(ps[2..], k, v);
        assert ps[1..][1..] == ps[2..];
        JoinTwo(ps[0], v, PieceReplace(ps[2..], k, v));
      } else {
        QuotedReplace(ps[1..], k, v);
        assert PieceReplace(ps, k, v) == [ps[0]] + PieceReplace(ps[1..], k, v);
        JoinOne(ps[0], PieceReplace(ps[1..], k, v));
      }
    }
  }

  lemma JoinOne(a: string, r: seq<string>)
    requires |r| >= 1
    ensures Text([a] + r) == a + [QUOTE] + Text(r) == a + ([QUOTE] + Text(r))
  {
    assert ([a] + r)[1..] == r;
  }

  lemma JoinTwo(a: string, v: string, r: seq<string>)
    requires |r| >= 1
    ensures Text([a, v] + r) == a + (Quoted(v) + Text(r))
  {
    assert [a, v] + r == [a] + ([v] + r);
    JoinOne(a, [v] + r);
    JoinOne(v, r);
  }

  lemma {:induction false} HitShift(ps: seq<string>, k: string, d: nat, i: nat)
    requires i + d < |ps| && !Hit(ps, k, d)
    ensures Hit(ps[d..], k, i) == Hit(ps, k, i + d)
  {
    if i > 0 {
      HitShift(ps, k, d, i - 1);
    }
  }

  /** Index by index: exactly the hit pieces change. */
  lemma {:induction false} PieceReplaceAt(ps: seq<string>, k: string, v: string, i: nat)
    requires i < |ps|
    ensures |PieceReplace(ps, k, v)| == |ps|
    ensures PieceReplace(ps, k, v)[i] == if Hit(ps, k, i) then v else ps[i]
    decreases |ps|
  {
    if |ps| >= 3 {
      if ps[1] == k {
        assert !Hit(ps, k, 0);
        assert Hit(ps, k, 1) && !Hit(ps, k, 2);
        PieceReplaceAt(ps[2..], k, v, if i < 2 then 0 else i - 2);
        if i >= 2 { HitShift(ps, k, 2, i - 2); }
      } else {
        assert !Hit(ps, k, 1);
        PieceReplaceAt(ps[1..], k, v, if i < 1 then 0 else i - 1);
        if i >= 1 { HitShift(ps, k, 1, i - 1); }
      }
    }
  }

  /** No replacement text is itself a name still to be replaced. */
  ghost predicate ValuesFresh(m: map<string, string>) { forall k :: k in m ==> m[k] !in m }

  lemma {:induction false} HitStable(ps: seq<string>, m: map<string, string>, k: string, i: nat)
    requires k !in m && forall j :: j in m ==> m[j] != k
    ensures Hit(MapBack(ps, m), k, i) == Hit(ps, k, i)
  {
    if i > 0 {
      HitStable(ps, m, k, i - 1);
    }
  }

  /** One more name: replacing it after the others is replacing it together with them. */
  lemma MapBackStep(ps: seq<string>, m: map<string, string>, k: string, v: string)
    requires |ps| >= 1 && k !in m && forall j :: j in m ==> m[j] != k
    ensures PieceReplace(MapBack(ps, m), k, v) == MapBack(ps, m[k := v])
  {
    var qs := MapBack(ps, m);
    PieceReplaceAt(qs, k, v, 0);
    forall i | 0 <= i < |ps|
      ensures PieceReplace(qs, k, v)[i] == MapBack(ps, m[k := v])[i]
    {
      PieceReplaceAt(qs, k, v, i);
      HitStable(ps, m, k, i);
    }
  }

  /** No two neighbouring quote-delimited pieces are the same name of `m`. */
  predicate NoNeighbours(ps: seq<string>, m: map<string, string>) {
    forall i :: 1 <= i < |ps| - 2 ==> !(ps[i] in m && ps[i + 1] == ps[i])
  }

  lemma {:induction false} NamesHit(ps: seq<string>, m: map<string, string>, i: nat)
    requires NoNeighbours(ps, m) && 1 <= i < |ps| - 1 && ps[i] in m
    ensures Hit(ps, ps[i], i)
  {
    if i > 1 {
      assert ps[i - 1] in m ==> ps[i - 1 + 1] != ps[i - 1];
    }
  }

  /** Without equal neighbours every quoted name is exchanged. */
  lemma TokenWise(ps: seq<string>, m: map<string, string>)
    requires NoNeighbours(ps, m)
    ensures forall i :: 1 <= i < |ps| - 1 ==> MapBack(ps, m)[i] == TokenMap(ps, m)[i]
    ensures |ps| >= 1 && ps[0] !in m && ps[|ps| - 1] !in m ==> MapBack(ps, m) == TokenMap(ps, m)
  {
    forall i | 1 <= i < |ps| - 1 && ps[i] in m
      ensures Hit(ps, ps[i], i)
    {
      NamesHit(ps, m, i);
    }
  }

  /** No quoted name is left over exactly when no two neighbours share a quote between equal names. */
  lemma NothingLeftExactly(ps: seq<string>, m: map<string, string>)
    requires ValuesFresh(m)
    ensures (forall i :: 1 <= i < |ps| - 1 ==> MapBack(ps, m)[i] !in m) <==> NoNeighbours(ps, m)
  {
    if NoNeighbours(ps, m) {
      TokenWise(ps, m);
    } else {
      var i :| 1 <= i < |ps| - 2 && ps[i] in m && ps[i + 1] == ps[i];
      assert Hit(ps, ps[i], i) ==> !Hit(ps, ps[i], i + 1);
      assert MapBack(ps, m)[i] in m || MapBack(ps, m)[i + 1] in m;
    }
  }

  lemma Regroup(a: string, b: string, sep: char, c: string)
    ensures a + (b + [sep] + c) == (a + b) + [sep] + c
  {
  }

  lemma ReplaceHead(old_: string, x: string, new_: string)
    requires old_ != ""
    ensures ReplaceAll(old_ + x, old_, new_) == new_ + ReplaceAll(x, old_, new_)
  {
    assert (old_ + x)[|old_|..] == x;
  }

  lemma ReplaceNext(c: char, x: string, old_: string, new_: string)
    requires old_ != "" && !(old_ <= [c] + x)
    ensures ReplaceAll([c] + x, old_, new_) == [c] + ReplaceAll(x, old_, new_)
  {
    assert ([c] + x)[1..] == x;
  }

  /** The replacement of a name without the separator never looks across it. */
  lemma {:induction false} Across(a: string, rest: string, old_: string, new_: string, c: char)
    requires Free(old_, c) && old_ != ""
    ensures ReplaceAll(a + [c] + rest, old_, new_) == ReplaceAll(a, old_, new_) + [c] + ReplaceAll(rest, old_, new_)
    decreases |a|
  {
    var r := ReplaceAll(rest, old_, new_);
    FreePrefix(a, rest, old_, c);
    if old_ <= a {
      var t := a[|old_|..];
      Across(t, rest, old_, new_, c);
      assert a == old_ + t;
      ReplaceHead(old_, t, new_);
      ReplaceHead(old_, t + [c] + rest, new_);
      Regroup(old_, t, c, rest);
      Regroup(new_, ReplaceAll(t, old_, new_), c, r);
    } else if a == "" {
      assert "" + [c] + rest == [c] + rest;
      ReplaceNext(c, rest, old_, new_);
    } else {
      var t := a[1..];
      Across(t, rest, old_, new_, c);
      assert a == [a[0]] + t;
      ReplaceNext(a[0], t, old_, new_);
      Regroup([a[0]], t, c, rest);
      ReplaceNext(a[0], t + [c] + rest, old_, new_);
      Regroup([a[0]], ReplaceAll(t, old_, new_), c, r);
    }
  }

  /** Text replacement of a name without the separator is replacement inside every piece. */
  lemma {:induction false} InnerReplace(ps: seq<string>, old_: string, new_: string, c: char)
    requires |ps| >= 1 && Free(old_, c) && old_ != ""
    ensures ReplaceAll(Join(ps, c), old_, new_) == Join(InsidePieces(ps, old_, new_), c)
  {
    if |ps| > 1 {
      Across(ps[0], Join(ps[1..], c), old_, new_, c);
      InnerReplace(ps[1..], old_, new_, c);
      assert InsidePieces(ps, old_, new_)[1..] == InsidePieces(ps[1..], old_, new_);
    }
  }

  /** A name without the separator occurs in a text exactly when it occurs inside one of the pieces. */
  lemma {:induction false} ContainsInPiece(ps: seq<string>, sub: string, c: char)
    requires |ps| >= 1 && Free(sub, c) && sub != ""
    ensures Contains(Join(ps, c), sub) <==> exists i :: 0 <= i < |ps| && Contains(ps[i], sub)
  {
    if |ps| > 1 {
      ContainsAcross(ps[0], Join(ps[1..], c), sub, c);
      ContainsInPiece(ps[1..], sub, c);
      if Contains(Join(ps[1..], c), sub) {
        var i :| 0 <= i < |ps[1..]| && Contains(ps[1..][i], sub);
        assert Contains(ps[i + 1], sub);
      }
      if i :| 0 <= i < |ps| && Contains(ps[i], sub) {
        assert i > 0 ==> Contains(ps[1..][i - 1], sub);
      }
    } else {
      assert Join(ps, c) == ps[0];
    }
  }

  lemma {:induction false} ContainsAcross(a: string, rest: string, sub: string, c: char)
    requires Free(sub, c) && sub != ""
    ensures Contains(a + [c] + rest, sub) <==> Contains(a, sub) || Contains(rest, sub)
  {
    var s := a + [c] + rest;
    FreePrefix(a, rest, sub, c);
    if a == "" {
      assert s[1..] == rest;
    } else {
      assert s[1..] == a[1..] + [c] + rest;
      ContainsAcross(a[1..], rest, sub, c);
    }
  }

  /** After a quoted replacement the name is left exactly inside the pieces that were not taken out as a whole. */
  lemma LeftoversExactly(ps: seq<string>, k: string, v: string)
    requires |ps| >= 1 && AllFree(ps, QUOTE) && Free(k, QUOTE) && k != "" && !Contains(v, k)
    ensures Contains(ReplaceAll(Text(ps), Quoted(k), Quoted(v)), k)
       <==> exists i :: 0 <= i < |ps| && Contains(ps[i], k) && !Hit(ps, k, i)
  {
    var qs := PieceReplace(ps, k, v);
    QuotedReplace(ps, k, v);
    ContainsInPiece(qs, k, QUOTE);
    forall i | 0 <= i < |ps| ensures qs[i] == if Hit(ps, k, i) then v else ps[i] { PieceReplaceAt(ps, k, v, i); }
    if i :| 0 <= i < |qs| && Contains(qs[i], k) { assert Contains(ps[i], k) && !Hit(ps, k, i); }
    if i :| 0 <= i < |ps| && Contains(ps[i], k) && !Hit(ps, k, i) { assert Contains(qs[i], k); }
  }

  lemma MapBackFree(ps: seq<string>, m: map<string, string>)
    requires AllFree(ps, QUOTE) && forall k :: k in m ==> Free(m[k], QUOTE)
    ensures AllFree(MapBack(ps, m), QUOTE)
  {
  }
}
