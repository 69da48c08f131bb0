/** The string methods the validators rely on, for ASCII text: `str.strip` and `str.lower`. */
module Strings {

  /** What `str.strip` removes: blank, tab to carriage return, and the four separators 0x1c-0x1f. */
  predicate IsSpace(c: char) {
    c == ' ' || '\t' <= c <= '\r' || '\U{1c}' <= c <= '\U{1f}'
  }

  function LowerChar(c: char): char {
    if 'A' <= c <= 'Z' then (c as int + 32) as char else c
  }

  function Lower(s: string): (r: string)
    ensures |r| == |s|
    ensures forall i :: 0 <= i < |s| ==> r[i] == LowerChar(s[i])
  {
    if s == "" then "" else [LowerChar(s[0])] + Lower(s[1..])
  }

  function StripLeft(s: string): string {
    if s != "" && IsSpace(s[0]) then StripLeft(s[1..]) else s
  }

  function StripRight(s: string): string {
    if s != "" && IsSpace(s[|s| - 1]) then StripRight(s[..|s| - 1]) else s
  }

  function Strip(s: string): string {
    StripRight(StripLeft(s))
  }

  predicate AllSpace(s: string) {
    forall i :: 0 <= i < |s| ==> IsSpace(s[i])
  }

  /** No blank at either end. */
  predicate Trimmed(s: string) {
    s != "" ==> !IsSpace(s[0]) && !IsSpace(s[|s| - 1])
  }

  lemma {:induction false} StripLeftRemovesBlanks(s: string) returns (front: string)
    ensures s == front + StripLeft(s) && AllSpace(front)
    ensures StripLeft(s) != "" ==> !IsSpace(StripLeft(s)[0])
  {
    if s != "" && IsSpace(s[0]) {
      var rest := StripLeftRemovesBlanks(s[1..]);
      front := [s[0]] + rest;
      assert s == [s[0]] + s[1..];
    } else {
      front := "";
    }
  }

  lemma {:induction false} StripRightRemovesBlanks(s: string) returns (back: string)
    ensures s == StripRight(s) + back && AllSpace(back)
    ensures StripRight(s) != "" ==> !IsSpace(StripRight(s)[|StripRight(s)| - 1])
  {
    if s != "" && IsSpace(s[|s| - 1]) {
      var rest := StripRightRemovesBlanks(s[..|s| - 1]);
      back := rest + [s[|s| - 1]];
      assert s == s[..|s| - 1] + [s[|s| - 1]];
    } else {
      back := "";
    }
  }

  /** `Strip` cuts blanks, and only blanks, off both ends until none is left there. */
  lemma StripCutsBlanks(s: string) returns (front: string, back: string)
    ensures s == front + Strip(s) + back && AllSpace(front) && AllSpace(back)
    ensures Trimmed(Strip(s))
  {
    front := StripLeftRemovesBlanks(s);
    back := StripRightRemovesBlanks(StripLeft(s));
    assert Strip(s) != "" ==> Strip(s)[0] == StripLeft(s)[0];
  }

  /** What is trimmed stays as it is; so stripping twice is stripping once. */
  lemma StripFixesTrimmed(s: string)
    ensures Strip(s) == s <==> Trimmed(s)
    ensures Strip(Strip(s)) == Strip(s)
  {
    var front, back := StripCutsBlanks(s);
    var _, _ := StripCutsBlanks(Strip(s));
  }

  /** The blanks, by code point. */
  lemma BlanksAre(c: char)
    ensures IsSpace(c) <==> c as int in {9, 10, 11, 12, 13, 28, 29, 30, 31, 32}
  {
  }

  /** The twenty-six capitals become the small letters, and no other character changes. */
  lemma LowerCharIs(c: char, i: nat)
    ensures i < 26 ==> LowerChar("ABCDEFGHIJKLMNOPQRSTUVWXYZ"[i]) == "abcdefghijklmnopqrstuvwxyz"[i]
    ensures c !in "ABCDEFGHIJKLMNOPQRSTUVWXYZ" ==> LowerChar(c) == c
  {
    assert 'A' <= c <= 'Z' ==> "ABCDEFGHIJKLMNOPQRSTUVWXYZ"[c as int - 65] == c;
  }

  /** Lower-casing neither creates nor destroys blanks, and is idempotent. */
  lemma LowerKeepsTrimmed(s: string)
    ensures Trimmed(s) ==> Trimmed(Lower(s))
    ensures Lower(Lower(s)) == Lower(s)
  {
  }
}
