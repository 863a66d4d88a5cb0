/**
 * The amount field's input sanitiser: on every change the typed text goes
 * through two regular-expression replaces before it is handed on. The
 * first, /[^0-9.]/g -> '', drops every character other than a decimal
 * digit or '.'. The second, /(\..*)\./g -> '$1', is modelled twice: as a
 * scan that follows the regular expression's greedy matching, and as the
 * plain rule it amounts to on digits-and-dots text (drop the last '.' when
 * there are at least two).
 */
module AmountInput {
  import opened Base

  predicate IsDigit(c: char)
  {
    '0' <= c <= '9'
  }

  /** The characters the first replace keeps. */
  predicate Allowed(c: char)
  {
    IsDigit(c) || c == '.'
  }

  predicate AllAllowed(s: string)
  {
    forall i :: 0 <= i < |s| ==> Allowed(s[i])
  }

  /** The characters a regular expression's `.` does not match. */
  predicate LineTerminator(c: char)
  {
    c == '\n' || c == '\r' || c == '\U{2028}' || c == '\U{2029}'
  }

  /** The digits of s, in order. */
  function Digits(s: string): string
  {
    if s == [] then [] else (if IsDigit(s[0]) then [s[0]] else []) + Digits(s[1..])
  }

  function DotCount(s: string): nat
  {
    if s == [] then 0 else (if s[0] == '.' then 1 else 0) + DotCount(s[1..])
  }

  lemma {:induction false} DigitsConcat(a: string, b: string)
    ensures Digits(a + b) == Digits(a) + Digits(b)
  {
    if a == [] {
      assert a + b == b;
    } else {
      assert (a + b)[0] == a[0];
      assert (a + b)[1..] == a[1..] + b;
      DigitsConcat(a[1..], b);
    }
  }

  lemma {:induction false} DotCountConcat(a: string, b: string)
    ensures DotCount(a + b) == DotCount(a) + DotCount(b)
  {
    if a == [] {
      assert a + b == b;
    } else {
      assert (a + b)[0] == a[0];
      assert (a + b)[1..] == a[1..] + b;
      DotCountConcat(a[1..], b);
    }
  }

  /** The first replace: every character that is not a digit or '.' is removed. */
  function KeepAllowed(s: string): (t: string)
    ensures |t| <= |s|
    ensures AllAllowed(t)
  {
    if s == [] then [] else (if Allowed(s[0]) then [s[0]] else []) + KeepAllowed(s[1..])
  }

  /** The first replace works character by character: it distributes over concatenation. */
  lemma {:induction false} KeepAllowedConcat(a: string, b: string)
    ensures KeepAllowed(a + b) == KeepAllowed(a) + KeepAllowed(b)
  {
    if a == [] {
      assert a + b == b;
    } else {
      assert (a + b)[0] == a[0];
      assert (a + b)[1..] == a[1..] + b;
      KeepAllowedConcat(a[1..], b);
    }
  }

  /** The first replace changes a string exactly when it holds a character it removes. */
  lemma {:induction false} KeepAllowedIdentity(s: string)
    ensures KeepAllowed(s) == s <==> AllAllowed(s)
  {
    if s != [] {
      KeepAllowedIdentity(s[1..]);
      if !Allowed(s[0]) {
        assert |KeepAllowed(s)| < |s|;
      }
    }
  }

  /** The first replace keeps every digit and every dot. */
  lemma {:induction false} KeepAllowedKeepsDigitsAndDots(s: string)
    ensures Digits(KeepAllowed(s)) == Digits(s)
    ensures DotCount(KeepAllowed(s)) == DotCount(s)
  {
    if s != [] {
      KeepAllowedKeepsDigitsAndDots(s[1..]);
      var head := if Allowed(s[0]) then [s[0]] else [];
      DigitsConcat(head, KeepAllowed(s[1..]));
      DotCountConcat(head, KeepAllowed(s[1..]));
    }
  }

  /** The index of the last '.' of s, if it has one. */
  function LastDot(s: string): (k: Option<nat>)
    ensures k.Some? ==> k.value < |s| && s[k.value] == '.' && DotCount(s[k.value + 1..]) == 0
    ensures k.None? <==> DotCount(s) == 0
  {
    if s == [] then None
    else match LastDot(s[1..])
      case Some(j) =>
        assert s[j + 2..] == s[1..][j + 1..];
        Some(j + 1)
      case None =>
        if s[0] == '.' then Some(0) else None
  }

  /** s without the character at index j. */
  function RemoveAt(s: string, j: nat): string
    requires j < |s|
  {
    s[..j] + s[j + 1..]
  }

  /**
   * The second replace on digits-and-dots text: the last '.' goes when there
   * are two or more. Every digit stays, and one dot goes exactly when there
   * were two or more.
   */
  function DropLastDot(t: string): (r: string)
    ensures Digits(r) == Digits(t)
    ensures DotCount(r) == if DotCount(t) >= 2 then DotCount(t) - 1 else DotCount(t)
  {
    if DotCount(t) >= 2 then
      var j := LastDot(t).value;
      RemoveDotKeepsDigits(t, j);
      RemoveDotCount(t, j);
      RemoveAt(t, j)
    else t
  }

  /** Removing a '.' keeps every digit. */
  lemma RemoveDotKeepsDigits(t: string, j: nat)
    requires j < |t| && t[j] == '.'
    ensures Digits(RemoveAt(t, j)) == Digits(t)
  {
    calc {
      Digits(RemoveAt(t, j));
      Digits(t[..j] + t[j + 1..]);
      { DigitsConcat(t[..j], t[j + 1..]); }
      Digits(t[..j]) + Digits(t[j + 1..]);
      { assert t[j..][1..] == t[j + 1..]; }
      Digits(t[..j]) + Digits(t[j..]);
      { DigitsConcat(t[..j], t[j..]); }
      Digits(t[..j] + t[j..]);
      { assert t[..j] + t[j..] == t; }
      Digits(t);
    }
  }

  /** Removing a '.' removes one dot. */
  lemma RemoveDotCount(t: string, j: nat)
    requires j < |t| && t[j] == '.'
    ensures DotCount(RemoveAt(t, j)) + 1 == DotCount(t)
  {
    calc {
      DotCount(RemoveAt(t, j)) + 1;
      DotCount(t[..j] + t[j + 1..]) + 1;
      { DotCountConcat(t[..j], t[j + 1..]); }
      DotCount(t[..j]) + DotCount(t[j + 1..]) + 1;
      { assert t[j..][1..] == t[j + 1..]; }
      DotCount(t[..j]) + DotCount(t[j..]);
      { DotCountConcat(t[..j], t[j..]); }
      DotCount(t[..j] + t[j..]);
      { assert t[..j] + t[j..] == t; }
      DotCount(t);
    }
  }

  /** The second replace shortens the text by one exactly when it drops a dot, and adds no other character. */
  lemma DropLastDotCounts(t: string)
    ensures |DropLastDot(t)| == if DotCount(t) >= 2 then |t| - 1 else |t|
    ensures AllAllowed(t) ==> AllAllowed(DropLastDot(t))
  {
    if DotCount(t) >= 2 {
      var j := LastDot(t).value;
      assert AllAllowed(t) ==> AllAllowed(RemoveAt(t, j)) by {
        if AllAllowed(t) {
          forall i | 0 <= i < |RemoveAt(t, j)| ensures Allowed(RemoveAt(t, j)[i]) {
            assert RemoveAt(t, j)[i] == if i < j then t[i] else t[i + 1];
          }
        }
      }
    }
  }

  /**
   * Where a greedy (\..*)\. match that starts at a '.' ends: the last '.'
   * of u reachable before a line terminator, u being the text after the
   * starting dot.
   */
  function LastDotInRun(u: string): (k: Option<nat>)
    ensures k.Some? ==> k.value < |u| && u[k.value] == '.'
  {
    if u == [] || LineTerminator(u[0]) then None
    else match LastDotInRun(u[1..])
      case Some(j) => Some(j + 1)
      case None => if u[0] == '.' then Some(0) else None
  }

  /**
   * The second replace as the regular-expression engine performs it,
   * left to right: at a '.' with a later '.' in the same line, the match
   * runs to the last such '.', which is dropped, and scanning resumes
   * after it; every other character is copied.
   */
  function ReplaceDotPairs(t: string): (r: string)
    ensures |r| <= |t|
    ensures Digits(r) == Digits(t)
    decreases |t|
  {
    if t == [] then []
    else if t[0] == '.' then
      match LastDotInRun(t[1..])
      case Some(j) =>
        var rest := ReplaceDotPairs(t[j + 2..]);
        assert RemoveAt(t, j + 1) == t[..j + 1] + t[j + 2..];
        RemoveDotKeepsDigits(t, j + 1);
        DigitsConcat(t[..j + 1], t[j + 2..]);
        DigitsConcat(t[..j + 1], rest);
        t[..j + 1] + rest
      case None =>
        CopyHeadDigits(t, ReplaceDotPairs(t[1..]));
        [t[0]] + ReplaceDotPairs(t[1..])
    else
      CopyHeadDigits(t, ReplaceDotPairs(t[1..]));
      [t[0]] + ReplaceDotPairs(t[1..])
  }

  /** Copying the first character of t before text with the digits of the others gives the digits of t. */
  lemma CopyHeadDigits(t: string, rest: string)
    requires t != [] && Digits(rest) == Digits(t[1..])
    ensures Digits([t[0]] + rest) == Digits(t)
  {
    DigitsConcat([t[0]], rest);
    DigitsConcat([t[0]], t[1..]);
    assert [t[0]] + t[1..] == t;
  }

  predicate NoLineTerminator(s: string)
  {
    forall i :: 0 <= i < |s| ==> !LineTerminator(s[i])
  }

  lemma {:induction false} LastDotInRunIsLastDot(u: string)
    requires NoLineTerminator(u)
    ensures LastDotInRun(u) == LastDot(u)
  {
    if u != [] {
      LastDotInRunIsLastDot(u[1..]);
    }
  }

  lemma {:induction false} ReplaceWithoutDots(t: string)
    requires DotCount(t) == 0
    ensures ReplaceDotPairs(t) == t
  {
    if t != [] {
      ReplaceWithoutDots(t[1..]);
    }
  }

  /** On text without line breaks the regular-expression scan removes the last dot, when there are two or more. */
  lemma {:induction false} ReplaceDropsLastDot(t: string)
    requires NoLineTerminator(t)
    ensures ReplaceDotPairs(t) == DropLastDot(t)
  {
    if t != [] {
      if t[0] == '.' {
        ReplaceAtDot(t);
      } else {
        ReplaceDropsLastDot(t[1..]);
        ReplaceAtOther(t);
      }
    }
  }

  /** A scan that starts at a dot. */
  lemma ReplaceAtDot(t: string)
    requires t != [] && t[0] == '.' && NoLineTerminator(t)
    ensures ReplaceDotPairs(t) == DropLastDot(t)
  {
    var u := t[1..];
    LastDotInRunIsLastDot(u);
    match LastDot(u)
    case Some(j) =>
      assert u[j + 1..] == t[j + 2..];
      ReplaceWithoutDots(t[j + 2..]);
      assert ReplaceDotPairs(t) == t[..j + 1] + t[j + 2..];
      assert LastDot(t) == Some(j + 1);
    case None =>
      ReplaceWithoutDots(u);
      assert ReplaceDotPairs(t) == [t[0]] + u;
      assert [t[0]] + u == t;
  }

  /** A scan that starts at a character other than a dot copies it. */
  lemma ReplaceAtOther(t: string)
    requires t != [] && t[0] != '.'
    requires ReplaceDotPairs(t[1..]) == DropLastDot(t[1..])
    ensures ReplaceDotPairs(t) == DropLastDot(t)
  {
    var u := t[1..];
    assert ReplaceDotPairs(t) == [t[0]] + DropLastDot(u);
    if DotCount(u) >= 2 {
      var j := LastDot(u).value;
      assert LastDot(t) == Some(j + 1);
      RemoveAtCons(t, j);
    } else {
      assert [t[0]] + u == t;
    }
  }

  lemma {:induction false} AllowedHasNoLineTerminator(s: string)
    requires AllAllowed(s)
    ensures NoLineTerminator(s)
  {
  }

  /** handleChagne's formattedValue: both replaces, one after the other. */
  function Sanitise(s: string): (r: string)
    ensures AllAllowed(r)
    ensures |r| <= |s|
    ensures Digits(r) == Digits(s)
  {
    var t := KeepAllowed(s);
    AllowedHasNoLineTerminator(t);
    ReplaceDropsLastDot(t);
    DropLastDotCounts(t);
    KeepAllowedKeepsDigitsAndDots(s);
    ReplaceDotPairs(t)
  }

  /** With at most two dots in the input, the output has at most one and is a fixed point. */
  lemma SanitiseAtMostTwoDots(s: string)
    requires DotCount(s) <= 2
    ensures DotCount(Sanitise(s)) <= 1
    ensures Sanitise(Sanitise(s)) == Sanitise(s)
  {
    var t := KeepAllowed(s);
    KeepAllowedKeepsDigitsAndDots(s);
    AllowedHasNoLineTerminator(t);
    ReplaceDropsLastDot(t);
    DropLastDotCounts(t);
    var r := Sanitise(s);
    KeepAllowedIdentity(r);
    AllowedHasNoLineTerminator(r);
    ReplaceDropsLastDot(r);
  }

  /** On every input, the sanitiser drops the characters other than digits and dots, then the last dot when two or more remain. */
  lemma SanitiseIsDropLastDot(s: string)
    ensures Sanitise(s) == DropLastDot(KeepAllowed(s))
  {
    AllowedHasNoLineTerminator(KeepAllowed(s));
    ReplaceDropsLastDot(KeepAllowed(s));
  }

  /** Three dots survive as two: "1.2.3.4" becomes "1.2.34". */
  lemma SanitiseKeepsTwoDots()
    ensures Sanitise("1.2.3.4") == "1.2.34"
    ensures DotCount(Sanitise("1.2.3.4")) == 2
  {
    SanitiseIsDropLastDot("1.2.3.4");
    ThreeDotFacts();
    ThreeDotLast();
    DropLastDotAt("1.2.3.4", 5);
  }

  /** The steps of "1.2.3.4" through the sanitiser. */
  lemma ThreeDotFacts()
    ensures KeepAllowed("1.2.3.4") == "1.2.3.4"
    ensures DotCount("1.2.3.4") == 3
  {
    KeepAllowedIdentity("1.2.3.4");
  }

  lemma ThreeDotLast()
    ensures LastDot("1.2.3.4") == Some(5)
    ensures RemoveAt("1.2.3.4", 5) == "1.2.34" && DotCount("1.2.34") == 2
  {
  }

  lemma DropLastDotAt(t: string, j: nat)
    requires DotCount(t) >= 2 && LastDot(t) == Some(j)
    ensures DropLastDot(t) == RemoveAt(t, j)
  {
  }

  /** Keeping the first '.' of t and dropping every later one. */
  function KeepFirstDot(t: string): (r: string)
    ensures DotCount(r) == if DotCount(t) == 0 then 0 else 1
  {
    if t == [] then []
    else if t[0] == '.' then
      ['.'] + DropDots(t[1..])
    else [t[0]] + KeepFirstDot(t[1..])
  }

  /** t without any '.'. */
  function DropDots(t: string): (r: string)
    ensures DotCount(r) == 0
  {
    if t == [] then []
    else
      var head := if t[0] == '.' then [] else [t[0]];
      DotCountConcat(head, DropDots(t[1..]));
      head + DropDots(t[1..])
  }

  /** Dropping dots keeps the digits and removes nothing else a sanitised string may hold. */
  lemma {:induction false} DropDotsKeeps(t: string)
    ensures |DropDots(t)| <= |t|
    ensures Digits(DropDots(t)) == Digits(t)
    ensures AllAllowed(t) ==> AllAllowed(DropDots(t))
  {
    if t != [] {
      DropDotsKeeps(t[1..]);
      var head := if t[0] == '.' then [] else [t[0]];
      DigitsConcat(head, DropDots(t[1..]));
    }
  }

  lemma {:induction false} KeepFirstDotKeeps(t: string)
    ensures |KeepFirstDot(t)| <= |t|
    ensures Digits(KeepFirstDot(t)) == Digits(t)
    ensures AllAllowed(t) ==> AllAllowed(KeepFirstDot(t))
  {
    if t != [] {
      if t[0] == '.' {
        DropDotsKeeps(t[1..]);
        DigitsConcat(['.'], DropDots(t[1..]));
      } else {
        KeepFirstDotKeeps(t[1..]);
        DigitsConcat([t[0]], KeepFirstDot(t[1..]));
      }
    }
  }

  /** The sanitiser as evidently intended: digits and at most one decimal point. */
  function SanitiseOneDot(s: string): (r: string)
    ensures AllAllowed(r)
    ensures |r| <= |s|
    ensures Digits(r) == Digits(s)
    ensures DotCount(r) <= 1
  {
    KeepAllowedKeepsDigitsAndDots(s);
    KeepFirstDotKeeps(KeepAllowed(s));
    KeepFirstDot(KeepAllowed(s))
  }

  /** The intended sanitiser is idempotent on every input. */
  lemma SanitiseOneDotIdempotent(s: string)
    ensures SanitiseOneDot(SanitiseOneDot(s)) == SanitiseOneDot(s)
  {
    var r := SanitiseOneDot(s);
    KeepAllowedIdentity(r);
    KeepFirstDotAtMostOne(r);
  }

  lemma {:induction false} KeepFirstDotAtMostOne(t: string)
    requires DotCount(t) <= 1
    ensures KeepFirstDot(t) == t
  {
    if t != [] {
      if t[0] == '.' {
        DropDotsWithoutDots(t[1..]);
      } else {
        KeepFirstDotAtMostOne(t[1..]);
      }
    }
  }

  lemma {:induction false} DropDotsWithoutDots(t: string)
    requires DotCount(t) == 0
    ensures DropDots(t) == t
  {
    if t != [] {
      DropDotsWithoutDots(t[1..]);
    }
  }

  /** Whenever the typed text has at most two dots, the sanitiser as written and as intended agree. */
  lemma SanitiseAgreesUpToTwoDots(s: string)
    requires DotCount(s) <= 2
    ensures Sanitise(s) == SanitiseOneDot(s)
  {
    var t := KeepAllowed(s);
    KeepAllowedKeepsDigitsAndDots(s);
    AllowedHasNoLineTerminator(t);
    ReplaceDropsLastDot(t);
    KeepFirstDotTwoDots(t);
  }

  /** With two dots, keeping the first is dropping the last. */
  lemma {:induction false} KeepFirstDotTwoDots(t: string)
    requires DotCount(t) <= 2
    ensures KeepFirstDot(t) == DropLastDot(t)
  {
    if DotCount(t) <= 1 {
      KeepFirstDotAtMostOne(t);
    } else if t[0] == '.' {
      var u := t[1..];
      DropDotsOneDot(u);
      var j := LastDot(u).value;
      assert LastDot(t) == Some(j + 1);
      RemoveAtCons(t, j);
    } else {
      KeepFirstDotTwoDots(t[1..]);
      var j := LastDot(t[1..]).value;
      assert LastDot(t) == Some(j + 1);
      RemoveAtCons(t, j);
    }
  }

  /** Dropping the only dot. */
  lemma DropDotsOneDot(u: string)
    requires DotCount(u) == 1
    ensures DropDots(u) == RemoveAt(u, LastDot(u).value)
  {
    var j := LastDot(u).value;
    var before, after := u[..j], u[j + 1..];
    DotCountAt(u, j);
    DropDotsWithoutDots(before);
    DropDotsWithoutDots(after);
    calc {
      DropDots(u);
      { DropDotsAt(u, j); }
      DropDots(before) + ([] + DropDots(after));
      { assert [] + DropDots(after) == DropDots(after); }
      before + after;
    }
  }

  lemma DotCountAt(u: string, j: nat)
    requires j < |u|
    ensures DotCount(u) == DotCount(u[..j]) + (if u[j] == '.' then 1 else 0) + DotCount(u[j + 1..])
  {
    assert u == u[..j] + u[j..];
    DotCountConcat(u[..j], u[j..]);
    assert u[j..][1..] == u[j + 1..];
  }

  lemma DropDotsAt(u: string, j: nat)
    requires j < |u|
    ensures DropDots(u) == DropDots(u[..j]) + ((if u[j] == '.' then [] else [u[j]]) + DropDots(u[j + 1..]))
  {
    assert u == u[..j] + u[j..];
    DropDotsSplit(u[..j], u[j..]);
    assert u[j..][1..] == u[j + 1..];
  }

  /** Removing a character after the first leaves the first in place. */
  lemma RemoveAtCons(t: string, j: nat)
    requires j + 1 < |t|
    ensures RemoveAt(t, j + 1) == [t[0]] + RemoveAt(t[1..], j)
  {
    assert t[..j + 1] == [t[0]] + t[1..][..j];
    assert t[j + 2..] == t[1..][j + 1..];
  }

  lemma {:induction false} DropDotsSplit(a: string, b: string)
    ensures DropDots(a + b) == DropDots(a) + DropDots(b)
  {
    if a == [] {
      assert a + b == b;
    } else {
      assert (a + b)[0] == a[0];
      assert (a + b)[1..] == a[1..] + b;
      DropDotsSplit(a[1..], b);
    }
  }
}
