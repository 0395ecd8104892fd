/** The parts of Go's `strings` package the shim and the cleaner lean on, over strings of bytes. */
module GoStrings {

  predicate Contains(s: string, sub: string) {
    sub <= s || (s != "" && Contains(s[1..], sub))
  }

  /** The position of the first occurrence of `sub`, or -1. */
  function Index(s: string, sub: string): (i: int)
    ensures i < 0 <==> !Contains(s, sub)
    ensures i >= 0 ==> i + |sub| <= |s| && s[i..i + |sub|] == sub
    ensures i >= 0 ==> forall j :: 0 <= j < i ==> !(sub <= s[j..])
  {
    if sub <= s then 0
    else if s == "" then -1
    else
      var r := Index(s[1..], sub);
      assert forall j :: 1 <= j <= |s| ==> s[j..] == s[1..][j - 1..];
      if r < 0 then -1 else r + 1
  }

  /** Leftmost, non-overlapping replacement. Every call in the repository passes a non-empty `old`. */
  function ReplaceAll(s: string, old_: string, new_: string): string
    requires old_ != ""
    decreases |s|
  {
    if old_ <= s then new_ + ReplaceAll(s[|old_|..], old_, new_)
    else if s == "" then ""
    else [s[0]] + ReplaceAll(s[1..], old_, new_)
  }

  function LowerChar(c: char): char { if 'A' <= c <= 'Z' then c - 'A' + 'a' else c }
  function UpperChar(c: char): char { if 'a' <= c <= 'z' then c - 'a' + 'A' else c }
  function ToLower(s: string): (r: string) ensures |r| == |s| { seq(|s|, i requires 0 <= i < |s| => LowerChar(s[i])) }
  function ToUpper(s: string): (r: string) ensures |r| == |s| { seq(|s|, i requires 0 <= i < |s| => UpperChar(s[i])) }

  predicate IsSpace(c: char) { c == ' ' || '\t' <= c <= '\r' }
  predicate IsDigit(c: char) { '0' <= c <= '9' }

  function TrimLeft(s: string): string { if s != "" && IsSpace(s[0]) then TrimLeft(s[1..]) else s }
  function TrimRight(s: string): string {
    if s != "" && IsSpace(s[|s| - 1]) then TrimRight(s[..|s| - 1]) else s
  }
  function TrimSpace(s: string): string { TrimRight(TrimLeft(s)) }
  predicate Trimmed(s: string) { s == "" || (!IsSpace(s[0]) && !IsSpace(s[|s| - 1])) }

  predicate Free(s: string, c: char) { forall i :: 0 <= i < |s| ==> s[i] != c }
  predicate AllFree(ps: seq<string>, c: char) { forall i :: 0 <= i < |ps| ==> Free(ps[i], c) }

  /** strings.Split with a one-character separator. */
  function Split(s: string, c: char): (ps: seq<string>)
    ensures |ps| >= 1 && AllFree(ps, c)
  {
    if s == "" then [""]
    else
      var r := Split(s[1..], c);
      if s[0] == c then [""] + r else [[s[0]] + r[0]] + r[1..]
  }

  function Join(ps: seq<string>, c: char): string
    requires |ps| >= 1
  {
    if |ps| == 1 then ps[0] else ps[0] + [c] + Join(ps[1..], c)
  }

  lemma {:induction false} ContainsAt(s: string, sub: string, i: nat)
    requires i <= |s| && sub <= s[i..]
    ensures Contains(s, sub)
  {
    if i == 0 {
      assert s[0..] == s;
    } else {
      assert s[1..][i - 1..] == s[i..];
      ContainsAt(s[1..], sub, i - 1);
    }
  }

  lemma PrefixWithin(s: string, mid: string, sub: string, i: nat, j: nat)
    requires i + |mid| <= |s| && s[i..i + |mid|] == mid && j + |sub| <= |mid| && mid[j..j + |sub|] == sub
    ensures i + j <= |s| && sub <= s[i + j..]
  {
    assert forall t :: 0 <= t < |sub| ==> sub[t] == mid[j + t] == s[i + (j + t)];
  }

  lemma {:induction false} ContainsSub(s: string, mid: string, sub: string)
    requires Contains(s, mid) && Contains(mid, sub)
    ensures Contains(s, sub)
  {
    var i, j := Index(s, mid), Index(mid, sub);
    PrefixWithin(s, mid, sub, i, j);
    ContainsAt(s, sub, i + j);
  }

  lemma {:induction false} ContainsShort(s: string, sub: string)
    requires |s| < |sub|
    ensures !Contains(s, sub)
  {
    if s != "" { ContainsShort(s[1..], sub); }
  }

  lemma {:induction false} ContainsChar(s: string, sub: string, c: char)
    requires Contains(s, sub) && !Free(sub, c)
    ensures !Free(s, c)
  {
    var i := Index(s, sub);
    var j :| 0 <= j < |sub| && sub[j] == c;
    assert s[i..i + |sub|][j] == s[i + j];
  }

  lemma {:induction false} ReplaceAbsent(s: string, old_: string, new_: string)
    requires old_ != "" && !Contains(s, old_)
    ensures ReplaceAll(s, old_, new_) == s
  {
    if s != "" { ReplaceAbsent(s[1..], old_, new_); }
  }

  lemma ReplaceWhole(old_: string, new_: string)
    requires old_ != ""
    ensures ReplaceAll(old_, old_, new_) == new_
  {
    assert old_[|old_|..] == "";
  }

  /** A shorter replacement shortens exactly the strings that hold a match. */
  lemma {:induction false} ReplaceShrinks(s: string, old_: string, new_: string)
    requires |new_| < |old_|
    ensures |ReplaceAll(s, old_, new_)| <= |s|
    ensures Contains(s, old_) ==> |ReplaceAll(s, old_, new_)| < |s|
  {
    if old_ <= s {
      ReplaceShrinks(s[|old_|..], old_, new_);
    } else if s != "" {
      ReplaceShrinks(s[1..], old_, new_);
    }
  }

  /** An equally long, different replacement keeps the length and changes every string that holds a match. */
  lemma {:induction false} ReplaceSameLength(s: string, old_: string, new_: string)
    requires old_ != "" && |new_| == |old_| && new_ != old_
    ensures |ReplaceAll(s, old_, new_)| == |s|
    ensures Contains(s, old_) ==> ReplaceAll(s, old_, new_) != s
  {
    if old_ <= s {
      ReplaceSameLength(s[|old_|..], old_, new_);
      assert ReplaceAll(s, old_, new_)[..|old_|] == new_;
    } else if s != "" {
      ReplaceSameLength(s[1..], old_, new_);
      assert ReplaceAll(s, old_, new_)[1..] == ReplaceAll(s[1..], old_, new_);
    }
  }

  lemma {:induction false} JoinSplit(s: string, c: char)
    ensures Join(Split(s, c), c) == s
  {
    if s != "" {
      JoinSplit(s[1..], c);
      var r := Split(s[1..], c);
      if s[0] == c {
        assert ([""] + r)[1..] == r;
      } else {
        assert ([[s[0]] + r[0]] + r[1..])[1..] == r[1..];
      }
      assert s == [s[0]] + s[1..];
    }
  }

  lemma {:induction false} SplitPrefix(a: string, rest: string, c: char)
    requires Free(a, c)
    ensures Split(a + [c] + rest, c) == [a] + Split(rest, c)
    ensures Split(a, c) == [a]
  {
    if a == "" {
      assert a + [c] + rest == [c] + rest;
      assert ([c] + rest)[1..] == rest;
    } else {
      SplitPrefix(a[1..], rest, c);
      assert (a + [c] + rest)[1..] == a[1..] + [c] + rest;
      assert a == [a[0]] + a[1..];
      assert (a + [c] + rest)[0] == a[0];
      assert ([a[1..]] + Split(rest, c))[1..] == Split(rest, c);
    }
  }

  lemma {:induction false} SplitJoin(ps: seq<string>, c: char)
    requires |ps| >= 1 && AllFree(ps, c)
    ensures Split(Join(ps, c), c) == ps
  {
    if |ps| == 1 {
      SplitPrefix(ps[0], "", c);
    } else {
      SplitJoin(ps[1..], c);
      SplitPrefix(ps[0], Join(ps[1..], c), c);
      assert ps == [ps[0]] + ps[1..];
    }
  }

  /** Joining is injective on separator-free pieces. */
  lemma JoinInjective(ps: seq<string>, qs: seq<string>, c: char)
    requires |ps| >= 1 && |qs| >= 1 && AllFree(ps, c) && AllFree(qs, c)
    requires Join(ps, c) == Join(qs, c)
    ensures ps == qs
  {
    SplitJoin(ps, c);
    SplitJoin(qs, c);
  }
}
