/**
 * The tokenizer shared by the lexical index and the hybrid facade:
 *
 *   text.toLowerCase().replace(/[^\w\s]/g, " ").split(/\s+/).filter(t => t.length > 0)
 *
 * `\w` is the ASCII class [A-Za-z0-9_]; `\s` is JavaScript's white-space class.
 */
module Tokenizer {
  import opened Js

  /** JavaScript `\s`: the ECMAScript white-space and line-terminator code points. */
  predicate IsSpace(c: char)
  {
    var n := c as int;
    (9 <= n <= 13) || n == 32 || n == 0xA0 || n == 0x1680 || (0x2000 <= n <= 0x200A)
    || n == 0x2028 || n == 0x2029 || n == 0x202F || n == 0x205F || n == 0x3000 || n == 0xFEFF
  }

  /** JavaScript `\w` (without the `u` flag). */
  predicate IsWordChar(c: char)
  {
    ('a' <= c <= 'z') || ('A' <= c <= 'Z') || ('0' <= c <= '9') || c == '_'
  }

  /** A character a token may hold: a lower-case ASCII letter, a digit or `_`. */
  predicate IsTokenChar(c: char)
  {
    ('a' <= c <= 'z') || ('0' <= c <= '9') || c == '_'
  }

  predicate IsToken(t: string)
  {
    t != [] && forall i :: 0 <= i < |t| ==> IsTokenChar(t[i])
  }

  function ToLower(c: char): char
  {
    if 'A' <= c <= 'Z' then (c as int + 32) as char else c
  }

  /** `text.toLowerCase()`, for the ASCII letters */
  function LowerCase(text: string): (r: string)
    ensures |r| == |text|
  {
    seq(|text|, i requires 0 <= i < |text| => ToLower(text[i]))
  }

  /** `text.replace(/[^\w\s]/g, " ")` */
  function ReplaceNonWord(text: string): (r: string)
    ensures |r| == |text|
  {
    seq(|text|, i requires 0 <= i < |text| => if IsWordChar(text[i]) || IsSpace(text[i]) then text[i] else ' ')
  }

  /** Index of the first white-space character of `s`, or `|s|`. */
  function FirstSpace(s: string): (i: nat)
    ensures i <= |s|
    ensures forall j :: 0 <= j < i ==> !IsSpace(s[j])
    ensures i < |s| ==> IsSpace(s[i])
  {
    if s == [] || IsSpace(s[0]) then 0 else 1 + FirstSpace(s[1..])
  }

  /** Length of the run of white space that `s` starts with. */
  function SpaceRun(s: string): (n: nat)
    ensures n <= |s|
    ensures forall j :: 0 <= j < n ==> IsSpace(s[j])
    ensures n < |s| ==> !IsSpace(s[n])
  {
    if s == [] || !IsSpace(s[0]) then 0 else 1 + SpaceRun(s[1..])
  }

  /** `s.split(/\s+/)`: the pieces between maximal runs of white space,
      including the empty pieces before a leading run and after a trailing one. */
  function Split(s: string): (pieces: seq<string>)
    ensures |pieces| >= 1
    decreases |s|
  {
    var i := FirstSpace(s);
    if i == |s| then [s]
    else
      var j := i + SpaceRun(s[i..]);
      assert s[i..][0] == s[i];
      [s[..i]] + Split(s[j..])
  }

  function IsNonEmpty(t: string): bool { t != [] }

  function Tokenize(text: string): seq<string>
  {
    Filter(Split(ReplaceNonWord(LowerCase(text))), IsNonEmpty)
  }

  /** `tokens.join(" ")` */
  function JoinSpace(tokens: seq<string>): string
  {
    if |tokens| == 0 then ""
    else if |tokens| == 1 then tokens[0]
    else tokens[0] + " " + JoinSpace(tokens[1..])
  }

  /** After lower-casing and replacement, every character is a token character
      or white space. */
  lemma NormalizedChars(text: string)
    ensures var n := ReplaceNonWord(LowerCase(text));
      forall i :: 0 <= i < |n| ==> IsTokenChar(n[i]) || IsSpace(n[i])
  {
  }

  /** Every piece of a split holds no white space, and holds only characters of
      the split string. */
  lemma {:induction false} SplitPieces(s: string, allowed: char -> bool)
    requires forall i :: 0 <= i < |s| ==> allowed(s[i]) || IsSpace(s[i])
    ensures forall p, k :: p in Split(s) && 0 <= k < |p| ==> allowed(p[k]) && !IsSpace(p[k])
  {
    var i := FirstSpace(s);
    if i < |s| {
      var j := i + SpaceRun(s[i..]);
      assert s[i..][0] == s[i];
      SplitPieces(s[j..], allowed);
      assert Split(s) == [s[..i]] + Split(s[j..]);
    }
  }

  /** Tokens are non-empty strings of lower-case ASCII letters, digits and `_`. */
  lemma TokensAreWords(text: string)
    ensures forall t :: t in Tokenize(text) ==> IsToken(t)
  {
    var n := ReplaceNonWord(LowerCase(text));
    NormalizedChars(text);
    SplitPieces(n, IsTokenChar);
    FilterMembers(Split(n), IsNonEmpty);
  }

  lemma {:induction false} JoinChars(tokens: seq<string>)
    requires forall i :: 0 <= i < |tokens| ==> IsToken(tokens[i])
    ensures forall k :: 0 <= k < |JoinSpace(tokens)| ==>
      IsTokenChar(JoinSpace(tokens)[k]) || JoinSpace(tokens)[k] == ' '
    ensures |tokens| >= 1 ==> IsToken(tokens[0]) && |JoinSpace(tokens)| >= 1 && JoinSpace(tokens)[0] == tokens[0][0]
  {
    if |tokens| >= 2 {
      JoinChars(tokens[1..]);
      var rest := JoinSpace(tokens[1..]);
      var j := JoinSpace(tokens);
      assert j == tokens[0] + " " + rest;
      forall k | 0 <= k < |j|
        ensures IsTokenChar(j[k]) || j[k] == ' '
      {
        if k < |tokens[0]| {
          assert j[k] == tokens[0][k];
        } else if k > |tokens[0]| {
          assert j[k] == rest[k - |tokens[0]| - 1];
        }
      }
    }
  }

  /** A string of token characters and single separating spaces is left
      unchanged by lower-casing and replacement. */
  lemma NormalizeJoin(tokens: seq<string>)
    requires forall i :: 0 <= i < |tokens| ==> IsToken(tokens[i])
    ensures ReplaceNonWord(LowerCase(JoinSpace(tokens))) == JoinSpace(tokens)
  {
    JoinChars(tokens);
  }

  lemma {:induction false} FirstSpaceOfConcat(a: string, b: string)
    requires forall k :: 0 <= k < |a| ==> !IsSpace(a[k])
    ensures FirstSpace(a + b) == |a| + FirstSpace(b)
  {
    if a != [] {
      assert (a + b)[1..] == a[1..] + b;
      FirstSpaceOfConcat(a[1..], b);
    } else {
      assert a + b == b;
    }
  }

  /** A piece without white space, one space, and a string that does not start
      with white space split into the piece followed by the split of the rest. */
  lemma SplitCons(t: string, rest: string)
    requires forall k :: 0 <= k < |t| ==> !IsSpace(t[k])
    requires rest != [] && !IsSpace(rest[0])
    ensures Split(t + " " + rest) == [t] + Split(rest)
  {
    var s := t + " " + rest;
    assert s == t + (" " + rest);
    FirstSpaceOfConcat(t, " " + rest);
    var i := FirstSpace(s);
    assert i == |t|;
    assert s[i..] == " " + rest;
    assert SpaceRun(" " + rest) == 1 by {
      assert (" " + rest)[1..] == rest;
    }
    assert s[i + 1..] == rest;
    assert s[..i] == t;
  }

  /** Splitting space-joined tokens gives the tokens back. */
  lemma {:induction false} SplitJoin(tokens: seq<string>)
    requires |tokens| >= 1
    requires forall i :: 0 <= i < |tokens| ==> IsToken(tokens[i])
    ensures Split(JoinSpace(tokens)) == tokens
  {
    var t := tokens[0];
    assert IsToken(t);
    if |tokens| == 1 {
      FirstSpaceOfConcat(t, []);
      assert t + [] == t;
    } else {
      var rest := JoinSpace(tokens[1..]);
      JoinChars(tokens[1..]);
      assert IsTokenChar(rest[0]);
      SplitCons(t, rest);
      SplitJoin(tokens[1..]);
      assert tokens == [t] + tokens[1..];
    }
  }

  /** Re-tokenizing tokens joined by single spaces returns the same tokens. */
  lemma TokenizeJoin(tokens: seq<string>)
    requires forall i :: 0 <= i < |tokens| ==> IsToken(tokens[i])
    ensures Tokenize(JoinSpace(tokens)) == tokens
  {
    NormalizeJoin(tokens);
    if tokens == [] {
      assert Split("") == [""];
    } else {
      SplitJoin(tokens);
      FilterAll(tokens, IsNonEmpty);
    }
  }

  /** Tokenizing is idempotent: the space-joined tokens of a text tokenize to
      the same tokens. */
  lemma TokenizeIdempotent(text: string)
    ensures Tokenize(JoinSpace(Tokenize(text))) == Tokenize(text)
  {
    TokensAreWords(text);
    TokenizeJoin(Tokenize(text));
  }
}
