/** The two package-level values of dex/dex_exchange.go: the symbol whitelist
    `^[ \w.'+\-$%/]+$` and the zero address. */
module DexExchange {

  /** An address, kept as a text that identifies it: different addresses
      have different texts, so comparing texts compares addresses. */
  type Address = string

  const ZeroAddress: Address := "0x0000000000000000000000000000000000000000"

  /** `\w` in Go's RE2 syntax: it is ASCII only. */
  predicate IsWordChar(c: char) {
    ('a' <= c <= 'z') || ('A' <= c <= 'Z') || ('0' <= c <= '9') || c == '_'
  }

  /** The bracketed class `[ \w.'+\-$%/]`. */
  predicate InAllowedClass(c: char) {
    IsWordChar(c) || c in " .'+-$%/"
  }

  /** How the anchored pattern `^C+$` matches: one class character, then either
      the end of the text (RE2's `$` without the multi-line flag is end of text
      only) or another match of `C+`. */
  predicate MatchesAllowed(s: string)
    decreases |s|
  {
    |s| > 0 && InAllowedClass(s[0]) && (|s| == 1 || MatchesAllowed(s[1..]))
  }

  /** The character-class reading of the whitelist, independent of the matcher. */
  predicate AllAllowed(s: string) {
    |s| > 0 && forall i :: 0 <= i < |s| ==> InAllowedClass(s[i])
  }

  /** The matcher accepts exactly the non-empty strings made only of class characters. */
  lemma {:induction false} MatchesAllowedIff(s: string)
    ensures MatchesAllowed(s) <==> AllAllowed(s)
    decreases |s|
  {
    if |s| > 1 {
      MatchesAllowedIff(s[1..]);
      if AllAllowed(s) {
        assert forall i :: 0 <= i < |s| - 1 ==> s[1..][i] == s[i + 1];
      }
      if MatchesAllowed(s) {
        forall i | 0 <= i < |s| ensures InAllowedClass(s[i]) {
          if i > 0 { assert s[i] == s[1..][i - 1]; }
        }
      }
    }
  }

  /** The `+` quantifier: the empty symbol does not pass. */
  lemma EmptyRejected()
    ensures !MatchesAllowed("")
  {
  }

  /** Anchoring: one character outside the class anywhere rejects the whole string. */
  lemma OneBadCharRejects(s: string, i: int)
    requires 0 <= i < |s| && !InAllowedClass(s[i])
    ensures !MatchesAllowed(s)
  {
    MatchesAllowedIff(s);
  }

  /** `\w` is ASCII only: every accepted string is ASCII, so its length in
      characters is its length in UTF-8 bytes. */
  lemma AcceptedIsAscii(s: string)
    requires MatchesAllowed(s)
    ensures forall i :: 0 <= i < |s| ==> s[i] as int < 128
  {
    MatchesAllowedIff(s);
    forall i | 0 <= i < |s| ensures s[i] as int < 128 {
      assert InAllowedClass(s[i]);
    }
  }

  /** `$` is end of text, not end of line: a trailing newline is rejected. */
  lemma TrailingNewlineRejected(s: string)
    ensures !MatchesAllowed(s + "\n")
  {
    OneBadCharRejects(s + "\n", |s|);
  }

  lemma WhitelistExamples()
    ensures MatchesAllowed("UNK") && MatchesAllowed("Cake-LP")
    ensures !MatchesAllowed("US@D") && !MatchesAllowed("\U{C9}TH")
  {
    OneBadCharRejects("US@D", 2);
    OneBadCharRejects("\U{C9}TH", 0);
  }
}
