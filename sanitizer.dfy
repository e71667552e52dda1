/** `check_input`: the sanitiser applied to the city, state and food category
    typed at the console, and to a menu answer that is not a number.  It deletes every character that is not an
    ASCII letter, lower-cases what is left and strips surrounding white space. */
module Sanitizer {
  import opened Python

  predicate IsAsciiLetter(c: char)
  {
    'a' <= c <= 'z' || 'A' <= c <= 'Z'
  }

  /** Every character is one of `a` to `z`. */
  predicate IsLowerWord(s: string)
  {
    forall i :: 0 <= i < |s| ==> 'a' <= s[i] <= 'z'
  }

  /** `t` can be obtained from `s` by deleting characters. */
  predicate IsSubsequence(t: string, s: string)
    decreases |s|
  {
    t == [] || (s != [] && ((t[0] == s[0] && IsSubsequence(t[1..], s[1..])) || IsSubsequence(t, s[1..])))
  }

  /** `re.sub(r'[^a-zA-Z]', r'', s)`: the ASCII letters of `s`, in order. */
  function LettersOnly(s: string): (r: string)
    ensures |r| <= |s|
    ensures forall i :: 0 <= i < |r| ==> IsAsciiLetter(r[i])
    decreases |s|
  {
    if s == [] then []
    else if IsAsciiLetter(s[0]) then [s[0]] + LettersOnly(s[1..])
    else LettersOnly(s[1..])
  }

  /** `check_input(user_input)`. */
  function CheckInput(userInput: string): (r: string)
    ensures IsLowerWord(r)
    ensures |r| <= |userInput|
  {
    var lowered := Lower(LettersOnly(userInput));
    StripKeeps(lowered);
    Strip(lowered)
  }

  // Properties of the regular-expression filter

  lemma {:induction false} LettersOnlyConcat(a: string, b: string)
    ensures LettersOnly(a + b) == LettersOnly(a) + LettersOnly(b)
    decreases |a|
  {
    if a == [] {
      assert a + b == b;
    } else {
      assert (a + b)[1..] == a[1..] + b;
      LettersOnlyConcat(a[1..], b);
    }
  }

  lemma {:induction false} LettersOnlySubsequence(s: string)
    ensures IsSubsequence(LettersOnly(s), s)
    decreases |s|
  {
    if s != [] {
      LettersOnlySubsequence(s[1..]);
      if IsAsciiLetter(s[0]) {
        assert ([s[0]] + LettersOnly(s[1..]))[1..] == LettersOnly(s[1..]);
      }
    }
  }

  lemma {:induction false} LettersOnlyKeepsLetters(s: string)
    requires forall i :: 0 <= i < |s| ==> IsAsciiLetter(s[i])
    ensures LettersOnly(s) == s
    decreases |s|
  {
    if s != [] {
      LettersOnlyKeepsLetters(s[1..]);
      assert [s[0]] + s[1..] == s;
    }
  }

  lemma {:induction false} LettersOnlyMembership(s: string, c: char)
    ensures c in LettersOnly(s) <==> c in s && IsAsciiLetter(c)
    decreases |s|
  {
    if s != [] {
      LettersOnlyMembership(s[1..], c);
      assert c in s <==> c == s[0] || c in s[1..];
    }
  }

  lemma {:induction false} LettersOnlyShrinks(s: string)
    ensures |LettersOnly(s)| == |s| <==> forall i :: 0 <= i < |s| ==> IsAsciiLetter(s[i])
    decreases |s|
  {
    if s != [] {
      LettersOnlyShrinks(s[1..]);
      assert forall i :: 1 <= i < |s| ==> s[i] == s[1..][i - 1];
    }
  }

  // Properties of check_input

  /** The `strip()` at the end never removes anything: its argument holds letters only. */
  lemma CheckInputStripIsNoOp(s: string)
    ensures CheckInput(s) == Lower(LettersOnly(s))
  {
    StripKeeps(Lower(LettersOnly(s)));
  }

  /** The result is the input's ASCII letters, lower-cased, in their original order. */
  lemma CheckInputLowersLetterSubsequence(s: string)
    ensures IsSubsequence(LettersOnly(s), s)
    ensures |CheckInput(s)| == |LettersOnly(s)|
    ensures forall i :: 0 <= i < |CheckInput(s)| ==> CheckInput(s)[i] == LowerChar(LettersOnly(s)[i])
  {
    var t := LettersOnly(s);
    LettersOnlySubsequence(s);
    CheckInputStripIsNoOp(s);
    assert |Lower(t)| == |t|;
    assert forall i :: 0 <= i < |t| ==> Lower(t)[i] == LowerChar(t[i]);
  }

  /** The output is exactly as long as the input when the input is letters only. */
  lemma CheckInputLength(s: string)
    ensures |CheckInput(s)| == |s| <==> forall i :: 0 <= i < |s| ==> IsAsciiLetter(s[i])
  {
    CheckInputStripIsNoOp(s);
    LettersOnlyShrinks(s);
  }

  /** A character appears in the output exactly when one of its two cases appears in the input. */
  lemma CheckInputMembership(s: string, c: char)
    ensures c in CheckInput(s) <==> exists d :: d in s && IsAsciiLetter(d) && LowerChar(d) == c
  {
    var t := LettersOnly(s);
    CheckInputStripIsNoOp(s);
    if c in CheckInput(s) {
      var i :| 0 <= i < |t| && Lower(t)[i] == c;
      LettersOnlyMembership(s, t[i]);
    }
    if exists d :: d in s && IsAsciiLetter(d) && LowerChar(d) == c {
      var d :| d in s && IsAsciiLetter(d) && LowerChar(d) == c;
      LettersOnlyMembership(s, d);
      var i :| 0 <= i < |t| && t[i] == d;
      assert Lower(t)[i] == c;
    }
  }

  /** Sanitising works character by character, so it distributes over concatenation. */
  lemma CheckInputConcat(a: string, b: string)
    ensures CheckInput(a + b) == CheckInput(a) + CheckInput(b)
  {
    var la, lb := LettersOnly(a), LettersOnly(b);
    LettersOnlyConcat(a, b);
    assert Lower(la + lb) == Lower(la) + Lower(lb) by {
      assert forall i :: 0 <= i < |la| + |lb| ==> Lower(la + lb)[i] == (Lower(la) + Lower(lb))[i];
    }
    CheckInputStripIsNoOp(a);
    CheckInputStripIsNoOp(b);
    CheckInputStripIsNoOp(a + b);
  }

  /** The strings `check_input` leaves unchanged are exactly the lower-case words. */
  lemma CheckInputFixedPoints(t: string)
    ensures CheckInput(t) == t <==> IsLowerWord(t)
  {
    if IsLowerWord(t) {
      assert forall i :: 0 <= i < |t| ==> IsAsciiLetter(t[i]);
      LettersOnlyKeepsLetters(t);
      assert Lower(t) == t by {
        assert forall i :: 0 <= i < |t| ==> Lower(t)[i] == LowerChar(t[i]) == t[i];
      }
      CheckInputStripIsNoOp(t);
    }
  }

  /** Sanitising an already sanitised input changes nothing. */
  lemma CheckInputIdempotent(s: string)
    ensures CheckInput(CheckInput(s)) == CheckInput(s)
  {
    CheckInputFixedPoints(CheckInput(s));
  }
}
