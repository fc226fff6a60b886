/** The light formatting applied to a chat message before it is shown as
    HTML: bold runs, numbered items, bullets and line breaks, each one
    global regular-expression replacement applied in turn. */
module MessageFormat {
  import opened JsValue

  const Break := "<br/>"

  // ---------------------------------------------------------------------------
  // `/\*\*(.*?)\*\*/g` -> `<strong>$1</strong>`

  /** Where the lazy `(.*?)\*\*` first closes in t: the least k with "**"
      at k and no line terminator before it (`.` stops at one). */
  function CloseAt(t: string): (k: Option<nat>)
    ensures k.Some? ==> k.value + 2 <= |t| && t[k.value..k.value + 2] == "**"
    ensures k.Some? ==> forall j :: 0 <= j < k.value ==> !IsLineTerminator(t[j])
  {
    if |t| < 2 then None
    else if t[..2] == "**" then Some(0)
    else if IsLineTerminator(t[0]) then None
    else match CloseAt(t[1..])
      case None => None
      case Some(k) => Some(k + 1)
  }

  /** Without a star nothing closes. */
  lemma {:induction false} CloseAtNone(t: string)
    requires '*' !in t
    ensures CloseAt(t).None?
    decreases |t|
  {
    if |t| >= 2 {
      assert t[..2] != "**" by {
        assert t[0] != '*';
      }
      CloseAtNone(t[1..]);
    }
  }

  /** The bold replacement, scanning left to right as the global regular
      expression does: a match at the current position is replaced and the
      scan resumes after it; otherwise one character is kept. */
  function Bold(s: string): string
    decreases |s|
  {
    if |s| < 2 then s
    else if s[..2] == "**" && CloseAt(s[2..]).Some? then
      var k := CloseAt(s[2..]).value;
      "<strong>" + s[2..2 + k] + "</strong>" + Bold(s[2 + k + 2..])
    else [s[0]] + Bold(s[1..])
  }

  /** Text without a star is left as it is. */
  lemma {:induction false} BoldPlain(s: string)
    requires '*' !in s
    ensures Bold(s) == s
    decreases |s|
  {
    if |s| >= 2 {
      assert s[..2] != "**" by {
        assert s[0] != '*';
      }
      BoldPlain(s[1..]);
    }
  }

  /** A star-free run on one line between two pairs of stars becomes bold. */
  lemma BoldWraps(t: string, u: string)
    requires '*' !in t && forall j :: 0 <= j < |t| ==> !IsLineTerminator(t[j])
    ensures Bold("**" + t + "**" + u) == "<strong>" + t + "</strong>" + Bold(u)
  {
    var s := "**" + t + "**" + u;
    assert s[..2] == "**";
    assert s[2..] == t + "**" + u;
    CloseWithin(t, u);
    assert CloseAt(s[2..]) == Some(|t|);
    assert s[2..2 + |t|] == t;
    assert s[2 + |t| + 2..] == u;
  }

  lemma {:induction false} CloseWithin(t: string, u: string)
    requires '*' !in t && forall j :: 0 <= j < |t| ==> !IsLineTerminator(t[j])
    ensures CloseAt(t + "**" + u) == Some(|t|)
    decreases |t|
  {
    var w := t + "**" + u;
    if |t| == 0 {
      assert w == "**" + u;
    } else {
      assert w[0] == t[0];
      assert w[1..] == t[1..] + "**" + u;
      CloseWithin(t[1..], u);
    }
  }

  /** Stars that are never closed are left as they are. */
  lemma BoldUnclosed(t: string)
    requires '*' !in t
    ensures Bold("**" + t) == "**" + t
  {
    var s := "**" + t;
    assert s[2..] == t;
    CloseAtNone(t);
    BoldPlain(t);
    if |t| > 0 {
      assert s[1..] == "*" + t;
      assert Bold(s[1..]) == s[1..] by {
        BoldPlain(t);
        assert (s[1..])[1..] == t;
      }
    }
  }

  // ---------------------------------------------------------------------------
  // `/(\d+)\.\s/g` -> `<br/>$1. `

  /** The numbered-item replacement: a run of digits, a full stop and one
      white-space character become a break, the digits, ". ". */
  function NumberedItems(s: string): string
    decreases |s|
  {
    if |s| == 0 then s
    else
      var k := DigitRun(s);
      if k > 0 && k + 1 < |s| && s[k] == '.' && IsJsSpace(s[k + 1]) then
        Break + s[..k] + ". " + NumberedItems(s[k + 2..])
      else [s[0]] + NumberedItems(s[1..])
  }

  /** Text without a digit is left as it is. */
  lemma {:induction false} NumberedItemsPlain(s: string)
    requires forall j :: 0 <= j < |s| ==> !IsDigit(s[j])
    ensures NumberedItems(s) == s
    decreases |s|
  {
    if |s| > 0 {
      NumberedItemsPlain(s[1..]);
    }
  }

  /** An item number followed by ". " or ".\n" starts a new line, and its
      white space becomes a single space. */
  lemma NumberedItem(digits: string, w: char, u: string)
    requires |digits| > 0 && forall j :: 0 <= j < |digits| ==> IsDigit(digits[j])
    requires IsJsSpace(w)
    ensures NumberedItems(digits + "." + [w] + u) == Break + digits + ". " + NumberedItems(u)
  {
    var s := digits + "." + [w] + u;
    DigitRunPrefix(digits, "." + [w] + u);
    assert s[|digits|] == '.' && s[|digits| + 1] == w;
    assert s[..|digits|] == digits;
    assert s[|digits| + 2..] == u;
  }

  lemma {:induction false} DigitRunPrefix(digits: string, rest: string)
    requires forall j :: 0 <= j < |digits| ==> IsDigit(digits[j])
    requires |rest| > 0 && !IsDigit(rest[0])
    ensures DigitRun(digits + rest) == |digits|
    decreases |digits|
  {
    if |digits| > 0 {
      assert (digits + rest)[1..] == digits[1..] + rest;
      DigitRunPrefix(digits[1..], rest);
    } else {
      assert digits + rest == rest;
    }
  }

  // ---------------------------------------------------------------------------
  // `/^[-•]\s/gm` -> `<br/>• `

  predicate IsBulletMark(c: char) {
    c == '-' || c == '•'
  }

  /** The bullet replacement: with the multiline flag `^` holds at the start
      and after any line terminator of the input, so atLineStart says
      whether the character before the current position is one. */
  function Bullets(s: string, atLineStart: bool): string
    decreases |s|
  {
    if |s| < 2 then s
    else if atLineStart && IsBulletMark(s[0]) && IsJsSpace(s[1]) then
      Break + "• " + Bullets(s[2..], IsLineTerminator(s[1]))
    else [s[0]] + Bullets(s[1..], IsLineTerminator(s[0]))
  }

  /** Text without a bullet mark is left as it is. */
  lemma {:induction false} BulletsPlain(s: string, atLineStart: bool)
    requires forall j :: 0 <= j < |s| ==> !IsBulletMark(s[j])
    ensures Bullets(s, atLineStart) == s
    decreases |s|
  {
    if |s| >= 2 {
      BulletsPlain(s[1..], IsLineTerminator(s[0]));
    }
  }

  /** A mark and a space open a bullet at the start of a line, and only
      there. */
  lemma BulletAtLineStart(mark: char, u: string)
    requires IsBulletMark(mark)
    ensures Bullets([mark, ' '] + u, true) == Break + "• " + Bullets(u, false)
    ensures Bullets([mark, ' '] + u, false) == [mark] + Bullets([' '] + u, false)
  {
    var s := [mark, ' '] + u;
    assert s[2..] == u;
    assert s[1..] == [' '] + u;
  }

  // ---------------------------------------------------------------------------
  // `/\n\n/g` -> `<br/><br/>`, then `/\n/g` -> `<br/>`

  function BreakPairs(s: string): string
    decreases |s|
  {
    if |s| == 0 then s
    else if |s| >= 2 && s[..2] == "\n\n" then Break + Break + BreakPairs(s[2..])
    else [s[0]] + BreakPairs(s[1..])
  }

  function BreakLines(s: string): (r: string)
    ensures '\n' !in r
  {
    if |s| == 0 then s
    else if s[0] == '\n' then Break + BreakLines(s[1..])
    else [s[0]] + BreakLines(s[1..])
  }

  lemma {:induction false} BreakLinesAppend(a: string, b: string)
    ensures BreakLines(a + b) == BreakLines(a) + BreakLines(b)
    decreases |a|
  {
    if |a| == 0 {
      assert a + b == b;
    } else {
      assert (a + b)[1..] == a[1..] + b;
      BreakLinesAppend(a[1..], b);
    }
  }

  /** Text without a newline is left as it is. */
  lemma {:induction false} BreakLinesPlain(s: string)
    requires '\n' !in s
    ensures BreakLines(s) == s
    decreases |s|
  {
    if |s| > 0 {
      BreakLinesPlain(s[1..]);
    }
  }

  /** Replacing blank lines first changes nothing: the two passes together
      turn every newline into one break, as the second pass alone would. */
  lemma {:induction false} PairsThenLines(s: string)
    ensures BreakLines(BreakPairs(s)) == BreakLines(s)
    decreases |s|
  {
    if |s| > 0 {
      if |s| >= 2 && s[..2] == "\n\n" {
        PairsThenLines(s[2..]);
        BreakLinesPlain(Break + Break);
        BreakLinesAppend(Break + Break, BreakPairs(s[2..]));
        assert s == "\n\n" + s[2..];
        BreakLinesAppend("\n\n", s[2..]);
      } else {
        PairsThenLines(s[1..]);
        BreakLinesAppend([s[0]], BreakPairs(s[1..]));
        assert s == [s[0]] + s[1..];
        BreakLinesAppend([s[0]], s[1..]);
      }
    }
  }

  // ---------------------------------------------------------------------------

  /** `formatMessageContent`: the five replacements in order. */
  function FormatMessageContent(content: string): (formatted: string)
    ensures '\n' !in formatted
  {
    BreakLines(BreakPairs(Bullets(NumberedItems(Bold(content)), true)))
  }

  /** The formatted text is the earlier steps' text with every newline made
      a break, and text with nothing to format is shown as it is. */
  lemma FormatPlain(content: string)
    ensures FormatMessageContent(content) == BreakLines(Bullets(NumberedItems(Bold(content)), true))
    ensures (forall j :: 0 <= j < |content| ==>
        content[j] != '*' && !IsDigit(content[j]) && !IsBulletMark(content[j]) && content[j] != '\n') ==>
      FormatMessageContent(content) == content
  {
    PairsThenLines(Bullets(NumberedItems(Bold(content)), true));
    if forall j :: 0 <= j < |content| ==>
        content[j] != '*' && !IsDigit(content[j]) && !IsBulletMark(content[j]) && content[j] != '\n'
    {
      BoldPlain(content);
      NumberedItemsPlain(content);
      BulletsPlain(content, true);
      BreakLinesPlain(content);
    }
  }
}
