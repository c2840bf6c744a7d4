/**
 * The confirmation step of clearing the ledger: the answer typed by the user
 * is stripped of surrounding white space, lower-cased and compared with "yes".
 */
module Confirmation {

  /** The characters Python's str.isspace accepts, and so the ones str.strip removes. */
  function IsSpace(c: char): (r: bool)
    ensures r ==> !('!' <= c <= '~')
    ensures c in " \t\n\r\U{0B}\U{0C}" ==> r
  {
    ('\t' <= c <= '\r') || ('\U{1C}' <= c <= '\U{1F}') || c == ' ' ||
    c == '\U{85}' || c == '\U{A0}' || c == '\U{1680}' ||
    ('\U{2000}' <= c <= '\U{200A}') || c == '\U{2028}' || c == '\U{2029}' ||
    c == '\U{202F}' || c == '\U{205F}' || c == '\U{3000}'
  }

  /** Drops leading white space. */
  function TrimLeft(s: string): (r: string)
    ensures |r| <= |s| && r == s[|s| - |r|..]
    ensures forall k :: 0 <= k < |s| - |r| ==> IsSpace(s[k])
    ensures r != [] ==> !IsSpace(r[0])
  {
    if s != [] && IsSpace(s[0]) then TrimLeft(s[1..]) else s
  }

  /** Drops trailing white space. */
  function TrimRight(s: string): (r: string)
    ensures |r| <= |s| && r == s[..|r|]
    ensures forall k :: |r| <= k < |s| ==> IsSpace(s[k])
    ensures r != [] ==> !IsSpace(r[|r| - 1])
  {
    if s != [] && IsSpace(s[|s| - 1]) then TrimRight(s[..|s| - 1]) else s
  }

  /** The number of white-space characters str.strip removes from the front of `s`. */
  function LeadingSpaces(s: string): (n: nat)
    ensures n <= |s|
  {
    |s| - |TrimLeft(s)|
  }

  /**
   * str.strip(): the result is the slice of `s` that starts after its leading
   * white space and ends before its trailing white space, and it neither
   * starts nor ends with white space.
   */
  function Strip(s: string): (r: string)
    ensures LeadingSpaces(s) + |r| <= |s|
    ensures r == s[LeadingSpaces(s)..LeadingSpaces(s) + |r|]
    ensures forall k :: 0 <= k < LeadingSpaces(s) ==> IsSpace(s[k])
    ensures forall k :: LeadingSpaces(s) + |r| <= k < |s| ==> IsSpace(s[k])
    ensures r != [] ==> !IsSpace(r[0]) && !IsSpace(r[|r| - 1])
  {
    var t := TrimLeft(s);
    var r := TrimRight(t);
    assert r == s[LeadingSpaces(s)..LeadingSpaces(s) + |r|];
    r
  }

  /** Lower-cases one character; only the letters A to Z are folded. */
  function LowerChar(c: char): char
  {
    if 'A' <= c <= 'Z' then (c as int - 'A' as int + 'a' as int) as char else c
  }

  /** str.lower(), restricted to the ASCII letters. */
  function Lower(s: string): (r: string)
    ensures |r| == |s|
    ensures forall k :: 0 <= k < |s| ==> r[k] == LowerChar(s[k])
  {
    if s == [] then [] else [LowerChar(s[0])] + Lower(s[1..])
  }

  /** `word` spells "yes" in any mixture of upper and lower case. */
  predicate SpellsYes(word: string)
  {
    |word| == 3 && word[0] in "yY" && word[1] in "eE" && word[2] in "sS"
  }

  /** A word lower-cases to "yes" exactly when it spells "yes" in some mixture of cases. */
  lemma LowerIsYes(w: string)
    ensures Lower(w) == "yes" <==> SpellsYes(w)
  {
    var l := Lower(w);
    if l == "yes" {
      assert l[0] == 'y' && l[1] == 'e' && l[2] == 's';
    }
    if SpellsYes(w) {
      assert l == "yes";
    }
  }

  /**
   * The clear step's test: the stripped, lower-cased answer is "yes", which
   * holds exactly when the stripped answer spells "yes" in some mixture of cases.
   */
  function IsAffirmative(answer: string): (r: bool)
    ensures r <==> SpellsYes(Strip(answer))
  {
    LowerIsYes(Strip(answer));
    Lower(Strip(answer)) == "yes"
  }

  /** Leading white space in front of a word that starts with a non-space is dropped whole. */
  lemma {:induction false} TrimLeftPadding(pre: string, w: string)
    requires forall k :: 0 <= k < |pre| ==> IsSpace(pre[k])
    requires w != [] && !IsSpace(w[0])
    ensures TrimLeft(pre + w) == w
  {
    if pre != [] {
      assert (pre + w)[1..] == pre[1..] + w;
      TrimLeftPadding(pre[1..], w);
    }
  }

  /** Trailing white space after a word that ends with a non-space is dropped whole. */
  lemma {:induction false} TrimRightPadding(w: string, post: string)
    requires forall k :: 0 <= k < |post| ==> IsSpace(post[k])
    requires w != [] && !IsSpace(w[|w| - 1])
    ensures TrimRight(w + post) == w
  {
    if post != [] {
      assert (w + post)[..|w + post| - 1] == w + post[..|post| - 1];
      TrimRightPadding(w, post[..|post| - 1]);
    }
  }

  /** Any white-space padding around any casing of "yes" is affirmative. */
  lemma PaddedYesIsAffirmative(pre: string, word: string, post: string)
    requires forall k :: 0 <= k < |pre| ==> IsSpace(pre[k])
    requires forall k :: 0 <= k < |post| ==> IsSpace(post[k])
    requires SpellsYes(word)
    ensures IsAffirmative(pre + word + post)
  {
    TrimLeftPadding(pre, word + post);
    assert pre + word + post == pre + (word + post);
    TrimRightPadding(word, post);
  }

  /** " YES " and "\tYes " are affirmative. */
  lemma SampleAffirmativeAnswers()
    ensures IsAffirmative(" YES ") && IsAffirmative("\tYes ")
  {
    PaddedYesIsAffirmative(" ", "YES", " ");
    assert " YES " == " " + "YES" + " ";
    PaddedYesIsAffirmative("\t", "Yes", " ");
    assert "\tYes " == "\t" + "Yes" + " ";
  }

  /** A word that neither starts nor ends with white space is left as it is by strip. */
  lemma StripUnpadded(w: string)
    requires w != [] ==> !IsSpace(w[0]) && !IsSpace(w[|w| - 1])
    ensures Strip(w) == w
  {
    assert TrimLeft(w) == w;
    assert TrimRight(w) == w;
  }

  /** "y", "no", "yes please" and "" are not affirmative. */
  lemma SampleNegativeAnswers()
    ensures !IsAffirmative("y") && !IsAffirmative("no")
    ensures !IsAffirmative("yes please") && !IsAffirmative("")
  {
    StripUnpadded("y");
    StripUnpadded("no");
    StripUnpadded("yes please");
    StripUnpadded("");
  }
}
