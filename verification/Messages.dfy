/** The words the shim looks for in the array's error answers, and what else those answers say. */
module Messages {
  import opened GoStrings
  import opened QuotedText
  import opened FlashArray
  import opened ArrayIdentity

  lemma ContainsMiddle(a: string, b: string, c: string)
    ensures Contains(a + b + c, b)
  {
    assert (a + b + c)[|a|..] == b + c;
    ContainsAt(a + b + c, b, |a|);
  }

  lemma LowerContains(s: string, sub: string)
    requires Contains(s, sub)
    ensures Contains(ToLower(s), ToLower(sub))
  {
    var i := Index(s, sub);
    assert ToLower(s)[i..i + |sub|] == ToLower(s[i..i + |sub|]);
    assert ToLower(sub) <= ToLower(s)[i..];
    ContainsAt(ToLower(s), ToLower(sub), i);
  }

  function ErrorPieces(msg: string): seq<string> { ["{", "errors", ":[{", "message", ":", msg, "}]}"] }

  // ---- "already" and "exist" ----

  function LowerAll(ps: seq<string>): (r: seq<string>)
    ensures |r| == |ps|
  {
    seq(|ps|, i requires 0 <= i < |ps| => ToLower(ps[i]))
  }

  /** Lower-casing leaves a separator that is no letter in its place. */
  lemma {:induction false} LowerJoin(ps: seq<string>, c: char)
    requires |ps| >= 1 && LowerChar(c) == c
    ensures ToLower(Join(ps, c)) == Join(LowerAll(ps), c)
  {
    if |ps| > 1 {
      LowerJoin(ps[1..], c);
      assert LowerAll(ps)[1..] == LowerAll(ps[1..]);
      assert ToLower(ps[0] + [c] + Join(ps[1..], c)) == ToLower(ps[0]) + [c] + ToLower(Join(ps[1..], c));
    }
  }

  predicate Lower(word: string) { forall i :: 0 <= i < |word| ==> !('A' <= word[i] <= 'Z') }

  /** A lower-cased text says a word without the separator if and only if one of its lower-cased pieces does. */
  lemma LowerPieces(ps: seq<string>, word: string, c: char)
    requires |ps| >= 1 && Free(word, c) && word != "" && LowerChar(c) == c
    ensures Contains(ToLower(Join(ps, c)), word) <==> exists i :: 0 <= i < |ps| && Contains(ToLower(ps[i]), word)
  {
    LowerJoin(ps, c);
    ContainsInPiece(LowerAll(ps), word, c);
    if i :| 0 <= i < |ps| && Contains(ToLower(ps[i]), word) { assert Contains(LowerAll(ps)[i], word); }
    if i :| 0 <= i < |LowerAll(ps)| && Contains(LowerAll(ps)[i], word) { assert Contains(ToLower(ps[i]), word); }
  }

  /** Of an error answer only the message can say "already". */
  lemma BodySaysAlready(msg: string)
    ensures Contains(ToLower(ErrorBody(msg)), "already") <==> Contains(ToLower(msg), "already")
  {
    var ps := ErrorPieces(msg);
    LowerPieces(ps, "already", QUOTE);
    forall i | 0 <= i < |ps| && i != 5 ensures !Contains(ToLower(ps[i]), "already") {
      if i == 3 {
        assert ToLower(ps[3])[0] == 'm';
        if Contains(ToLower(ps[3]), "already") { ContainsSameLength(ToLower(ps[3]), "already"); }
      } else {
        ContainsShort(ToLower(ps[i]), "already");
      }
    }
    if Contains(ToLower(msg), "already") { assert Contains(ToLower(ps[5]), "already"); }
  }

  const ACCESS := "does not have access to realm"

  /** The refusal's message, cut at the blanks around its two names. */
  function RefusalParts(host: string, realm: string): seq<string> { ["Host", host, ACCESS, realm + ['.']] }

  lemma RefusalIsJoined(host: string, realm: string)
    ensures NoAccess(host, realm) == Join(RefusalParts(host, realm), ' ')
  {
    var last := realm + ['.'];
    JoinMore(ACCESS, [last]);
    JoinMore(host, [ACCESS, last]);
    JoinMore("Host", [host, ACCESS, last]);
    FixedText();
    Glue("Host ", "Host", host, " does not have access to realm ", ACCESS, realm);
  }

  lemma FixedText()
    ensures "Host " == "Host" + [' '] && " does not have access to realm " == [' '] + ACCESS + [' ']
  {
  }

  lemma Glue(a: string, a': string, host: string, b: string, b': string, realm: string)
    requires a == a' + [' '] && b == [' '] + b' + [' ']
    ensures a + host + b + realm + "." == a' + [' '] + (host + [' '] + (b' + [' '] + (realm + ['.'])))
  {
  }

  lemma JoinMore(a: string, rest: seq<string>)
    requires rest != []
    ensures Join([a] + rest, ' ') == a + [' '] + Join(rest, ' ')
  {
    assert ([a] + rest)[1..] == rest;
  }

  lemma AccessSaysNothing()
    ensures !Contains(ToLower(ACCESS), "already")
  {
    assert "already"[6] == 'y';
    assert Free(ToLower(ACCESS), 'y');
    if Contains(ToLower(ACCESS), "already") { ContainsChar(ToLower(ACCESS), "already", 'y'); }
  }

  /** A refusal says "already" if and only if the host's or the realm's name does. */
  lemma RefusalSaysAlready(host: string, realm: string)
    ensures Contains(ToLower(NoAccess(host, realm)), "already") <==>
              Contains(ToLower(host), "already") || Contains(ToLower(realm), "already")
  {
    var ws := RefusalParts(host, realm);
    RefusalIsJoined(host, realm);
    LowerPieces(ws, "already", ' ');
    EndsWithPeriod(realm);
    AccessSaysNothing();
    ContainsShort(ToLower(ws[0]), "already");
    forall i | 0 <= i < |ws| && Contains(ToLower(ws[i]), "already") ensures i == 1 || i == 3 {
      assert i != 0 && i != 2;
    }
    if Contains(ToLower(host), "already") { assert Contains(ToLower(ws[1]), "already"); }
    if Contains(ToLower(realm), "already") { assert Contains(ToLower(ws[3]), "already"); }
  }

  /** So does the whole answer. */
  lemma RefusalBodySaysAlready(host: string, realm: string)
    ensures Contains(ToLower(ErrorBody(NoAccess(host, realm))), "already") <==>
              Contains(ToLower(host), "already") || Contains(ToLower(realm), "already")
  {
    BodySaysAlready(NoAccess(host, realm));
    RefusalSaysAlready(host, realm);
  }

  lemma EndsWithPeriod(realm: string)
    ensures Contains(ToLower(realm + ['.']), "already") <==> Contains(ToLower(realm), "already")
  {
    ContainsAcross(ToLower(realm), "", "already", '.');
    ContainsShort("", "already");
    assert ToLower(realm + ['.']) == ToLower(realm) + ['.'] + "";
  }

  /** A lower-case word at a known place of the message is found in the lower-cased answer. */
  lemma ErrorSays(msg: string, word: string, at_: nat)
    requires Free(msg, QUOTE) && msg != "" && Lower(word)
    requires at_ + |word| <= |msg| && forall i :: 0 <= i < |word| ==> msg[at_ + i] == word[i]
    ensures Contains(ToLower(ErrorBody(msg)), word)
  {
    assert word <= msg[at_..];
    ContainsAt(msg, word, at_);
    assert msg <= ErrorPieces(msg)[5];
    ContainsInPiece(ErrorPieces(msg), msg, QUOTE);
    ContainsSub(ErrorBody(msg), msg, word);
    LowerContains(ErrorBody(msg), word);
    assert ToLower(word) == word;
  }

  lemma DuplicateSaysAlready()
    ensures Contains(ToLower(ErrorBody(CONNECTED_BEFORE)), "already")
  {
    ErrorSays(CONNECTED_BEFORE, "already", 11);
  }

  lemma RepeatedGrantSaysExist()
    ensures Contains(ToLower(ErrorBody(GRANTED_BEFORE)), "exist")
  {
    ErrorSays(GRANTED_BEFORE, "exist", 24);
  }

  lemma MissingHostSaysExist()
    ensures Contains(ToLower(ErrorBody(NO_HOST)), "exist")
  {
    ErrorSays(NO_HOST, "exist", 14);
  }

  lemma MissingRealmSaysExist()
    ensures Contains(ToLower(ErrorBody(NO_REALM)), "exist")
  {
    ErrorSays(NO_REALM, "exist", 15);
  }
}
