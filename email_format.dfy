/** The e-mail pattern the signup and login pages share,
    `^[^\s@]+@[^\s@]+\.[^\s@]+$`: its meaning, and a direct check that agrees
    with it. */
module EmailFormat {
  import opened JsValue

  /** `[^\s@]` */
  predicate PlainChar(c: char) {
    !IsJsSpace(c) && c != '@'
  }

  predicate AllPlain(s: string) {
    forall i :: 0 <= i < |s| ==> PlainChar(s[i])
  }

  /** What the pattern matches: three non-empty runs of plain characters,
      the first two joined by '@', the last two by '.'. */
  ghost predicate MatchesPattern(s: string) {
    exists at, dot :: 0 < at && at + 1 < dot && dot + 1 < |s| && s[at] == '@' && s[dot] == '.'
      && AllPlain(s[..at]) && AllPlain(s[at + 1..dot]) && AllPlain(s[dot + 1..])
  }

  /** The first index of c in s, |s| when there is none. */
  function IndexOf(s: string, c: char): (i: nat)
    ensures i <= |s|
    ensures i < |s| ==> s[i] == c
    ensures forall j :: 0 <= j < i ==> s[j] != c
  {
    if |s| == 0 then 0
    else if s[0] == c then 0
    else 1 + IndexOf(s[1..], c)
  }

  /** The pattern's test, read directly: no white space, exactly one '@'
      with something before it, and a '.' strictly inside what follows. */
  predicate IsEmail(s: string) {
    var at := IndexOf(s, '@');
    if at == 0 || at == |s| then false
    else
      var domain := s[at + 1..];
      (forall i :: 0 <= i < |s| ==> !IsJsSpace(s[i]))
      && '@' !in domain
      && |domain| >= 3 && '.' in domain[1..|domain| - 1]
  }

  /** The direct check accepts exactly what the pattern matches. */
  lemma IsEmailMatches(s: string)
    ensures IsEmail(s) <==> MatchesPattern(s)
  {
    if IsEmail(s) {
      var at := IndexOf(s, '@');
      var domain := s[at + 1..];
      var inner := domain[1..|domain| - 1];
      var k :| 0 <= k < |inner| && inner[k] == '.';
      var dot := at + 2 + k;
      assert s[dot] == '.';
      assert forall i :: at + 1 <= i < |s| ==> s[i] == domain[i - at - 1];
      assert AllPlain(s[..at]);
      assert AllPlain(s[at + 1..dot]);
      assert AllPlain(s[dot + 1..]);
    }
    if MatchesPattern(s) {
      var at, dot :| 0 < at && at + 1 < dot && dot + 1 < |s| && s[at] == '@' && s[dot] == '.'
        && AllPlain(s[..at]) && AllPlain(s[at + 1..dot]) && AllPlain(s[dot + 1..]);
      PatternParts(s, at, dot);
    }
  }

  lemma PatternParts(s: string, at: nat, dot: nat)
    requires 0 < at && at + 1 < dot && dot + 1 < |s| && s[at] == '@' && s[dot] == '.'
    requires AllPlain(s[..at]) && AllPlain(s[at + 1..dot]) && AllPlain(s[dot + 1..])
    ensures IsEmail(s)
  {
    assert forall j :: 0 <= j < at ==> s[..at][j] == s[j];
    assert IndexOf(s, '@') == at;
    var domain := s[at + 1..];
    assert forall i :: 0 <= i < |s| ==> !IsJsSpace(s[i]) by {
      forall i | 0 <= i < |s|
        ensures !IsJsSpace(s[i])
      {
        if i < at {
          assert s[..at][i] == s[i];
        } else if at < i < dot {
          assert s[at + 1..dot][i - at - 1] == s[i];
        } else if dot < i {
          assert s[dot + 1..][i - dot - 1] == s[i];
        }
      }
    }
    assert '@' !in domain by {
      forall i | 0 <= i < |domain|
        ensures domain[i] != '@'
      {
        var j := i + at + 1;
        if j < dot {
          assert s[at + 1..dot][j - at - 1] == s[j];
        } else if dot < j {
          assert s[dot + 1..][j - dot - 1] == s[j];
        }
      }
    }
    assert domain[1..|domain| - 1][dot - at - 2] == '.';
  }

  /** A few addresses the pattern accepts and refuses. */
  lemma EmailExamples()
    ensures IsEmail("a@b.c")
    ensures !IsEmail("a@b")
    ensures !IsEmail("@b.c")
    ensures !IsEmail("a@@b.c")
  {
    assert IndexOf("a@b.c", '@') == 1;
    assert "a@b.c"[2..][1..2] == ".";
    assert IndexOf("a@@b.c", '@') == 1;
    assert "a@@b.c"[2..][0] == '@';
  }
}
