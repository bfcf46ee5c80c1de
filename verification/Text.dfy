/** The few string operations the planner and the lock enumeration decide with. */
module Text {
  predicate IsSpace(c: char) {
    c in {' ', '\t', '\n', '\r', '\U{0B}', '\U{0C}', '\U{1C}', '\U{1D}', '\U{1E}', '\U{1F}', '\U{85}', '\U{A0}'}
  }

  function TrimLeft(s: string): string {
    if s != [] && IsSpace(s[0]) then TrimLeft(s[1..]) else s
  }

  function TrimRight(s: string): string {
    if s != [] && IsSpace(s[|s| - 1]) then TrimRight(s[..|s| - 1]) else s
  }

  function Strip(s: string): string {
    TrimRight(TrimLeft(s))
  }

  predicate Blank(s: string) {
    Strip(s) == []
  }

  function LowerChar(c: char): char {
    if 'A' <= c <= 'Z' then c + ('a' - 'A') else c
  }

  function Lower(s: string): (t: string)
    ensures |t| == |s|
  {
    if s == [] then [] else [LowerChar(s[0])] + Lower(s[1..])
  }

  function Join(parts: seq<string>): string {
    if parts == [] then ""
    else if |parts| == 1 then parts[0]
    else Join(parts[..|parts| - 1]) + " " + parts[|parts| - 1]
  }

  predicate Letter(c: char) {
    'a' <= c <= 'z'
  }

  /** A character of the token pattern's tail: a lower-case letter or a hyphen. */
  predicate TokenChar(c: char) {
    Letter(c) || c == '-'
  }

  function RunLength(s: string): (n: nat)
    ensures n <= |s|
    ensures n < |s| ==> !TokenChar(s[n])
    ensures forall i | 0 <= i < n :: TokenChar(s[i])
  {
    if s != [] && TokenChar(s[0]) then 1 + RunLength(s[1..]) else 0
  }

  /** All non-overlapping matches of a letter followed by at least two token characters. */
  function Tokens(s: string): set<string>
    decreases |s|
  {
    if s == [] then {}
    else if !Letter(s[0]) then Tokens(s[1..])
    else
      var n := RunLength(s);
      (if n >= 3 then {s[..n]} else {}) + Tokens(s[n..])
  }

  /** A blank separates matches: the tokens of two joined texts are those of either. */
  lemma {:induction false} TokensOfJoin(a: string, b: string)
    ensures Tokens(a + " " + b) == Tokens(a) + Tokens(b)
    decreases |a|
  {
    var s := a + " " + b;
    if a == [] {
      assert s[1..] == b;
    } else if !Letter(a[0]) {
      assert s[1..] == a[1..] + " " + b;
      TokensOfJoin(a[1..], b);
    } else {
      RunStopsAtBlank(a, b);
      var n := RunLength(a);
      assert s[..n] == a[..n];
      assert s[n..] == a[n..] + " " + b;
      TokensOfJoin(a[n..], b);
    }
  }

  lemma {:induction false} RunStopsAtBlank(a: string, b: string)
    ensures RunLength(a + " " + b) == RunLength(a)
  {
    var s := a + " " + b;
    if a != [] {
      assert s[1..] == a[1..] + " " + b;
      RunStopsAtBlank(a[1..], b);
    }
  }

  lemma {:induction false} LowerOfConcat(a: string, b: string)
    ensures Lower(a + b) == Lower(a) + Lower(b)
  {
    if a == [] {
      assert a + b == b;
    } else {
      assert (a + b)[1..] == a[1..] + b;
      LowerOfConcat(a[1..], b);
    }
  }

  function JoinedTokens(parts: seq<string>): set<string> {
    Tokens(Lower(Join(parts)))
  }

  lemma TokensOfAppendedPart(parts: seq<string>, part: string)
    ensures JoinedTokens(parts + [part]) == JoinedTokens(parts) + Tokens(Lower(part))
  {
    var more := parts + [part];
    assert more[..|parts|] == parts;
    if parts != [] {
      LowerOfConcat(Join(parts) + " ", part);
      LowerOfConcat(Join(parts), " ");
      assert Lower(" ") == " ";
      TokensOfJoin(Lower(Join(parts)), Lower(part));
    } else {
      assert Lower("") == "" && Tokens("") == {};
    }
  }

  /** Appending parts to a joined text only adds tokens. */
  lemma {:induction false} TokensGrow(parts: seq<string>, more: seq<string>)
    ensures JoinedTokens(parts) <= JoinedTokens(parts + more)
  {
    if more == [] {
      assert parts + more == parts;
    } else {
      var init := more[..|more| - 1];
      TokensGrow(parts, init);
      TokensOfAppendedPart(parts + init, more[|more| - 1]);
      assert parts + more == (parts + init) + [more[|more| - 1]];
    }
  }

  // ----- What the operations mean -----

  /** Stripping takes the text between its first and its last character that is not white space. */
  lemma {:induction false} StripTakesTheMiddle(s: string) returns (i: nat, j: nat)
    ensures i <= j <= |s| && Strip(s) == s[i..j]
    ensures forall k | 0 <= k < |s| && !(i <= k < j) :: IsSpace(s[k])
    ensures i < j ==> !IsSpace(s[i]) && !IsSpace(s[j - 1])
  {
    hide IsSpace;
    i := TrimLeftDrops(s);
    var n := TrimRightDrops(s[i..]);
    j := i + n;
    assert forall k | j <= k < |s| :: s[k] == s[i..][k - i];
    if i < j {
      assert s[i..][0] == s[i];
    }
  }

  lemma {:induction false} TrimLeftDrops(s: string) returns (i: nat)
    ensures i <= |s| && TrimLeft(s) == s[i..]
    ensures (forall k | 0 <= k < i :: IsSpace(s[k])) && (i < |s| ==> !IsSpace(s[i]))
  {
    hide IsSpace;
    i := 0;
    if s != [] && IsSpace(s[0]) {
      var n := TrimLeftDrops(s[1..]);
      i := n + 1;
      assert forall k | 0 < k < i :: s[k] == s[1..][k - 1];
    }
  }

  lemma {:induction false} TrimRightDrops(s: string) returns (j: nat)
    ensures j <= |s| && TrimRight(s) == s[..j]
    ensures (forall k | j <= k < |s| :: IsSpace(s[k])) && (j > 0 ==> !IsSpace(s[j - 1]))
  {
    hide IsSpace;
    j := |s|;
    if s != [] && IsSpace(s[|s| - 1]) {
      j := TrimRightDrops(s[..|s| - 1]);
      assert forall k | j <= k < |s| - 1 :: s[k] == s[..|s| - 1][k];
    }
  }

  /** Lower-casing keeps every character but the capitals, which it moves to the small letters. */
  lemma {:induction false} LowerPerCharacter(s: string, k: nat)
    requires k < |s|
    ensures if 'A' <= s[k] <= 'Z' then Lower(s)[k] as int == s[k] as int + 32 else Lower(s)[k] == s[k]
  {
    if k > 0 {
      LowerPerCharacter(s[1..], k - 1);
    }
  }

  /** A letter before position `i` whose run of token characters reaches it. */
  predicate Reached(s: string, i: nat)
    requires i <= |s|
  {
    exists p | 0 <= p < i :: Letter(s[p]) && AllTokenChars(s, p, i)
  }

  predicate AllTokenChars(s: string, i: nat, j: nat)
    requires j <= |s|
  {
    forall k | i <= k < j :: TokenChar(s[k])
  }

  /** The text from `i` to `j` is a match: it starts with a letter no earlier match takes, has three characters or more,
      and is as long as it can be. */
  predicate TokenAt(s: string, i: nat, j: nat) {
    && i + 3 <= j <= |s| && Letter(s[i]) && AllTokenChars(s, i, j)
    && (j < |s| ==> !TokenChar(s[j]))
    && !Reached(s, i)
  }

  /** The matches of a shortened text are those of the whole behind the cut. */
  lemma TokenShift(s: string, n: nat, i: nat, j: nat)
    requires 0 < n <= i <= j <= |s| && i < |s|
    requires (forall p | 0 <= p < n :: !Letter(s[p])) || (n < |s| && !TokenChar(s[n]))
    ensures TokenAt(s, i, j) <==> TokenAt(s[n..], i - n, j - n)
  {
    var t := s[n..];
    assert forall k | n <= k < |s| :: s[k] == t[k - n];
    if Letter(s[i]) {
      if Reached(s, i) {
        var p :| 0 <= p < i && Letter(s[p]) && AllTokenChars(s, p, i);
        assert Letter(t[p - n]) && AllTokenChars(t, p - n, i - n);
      }
      if Reached(t, i - n) {
        var p :| 0 <= p < i - n && Letter(t[p]) && AllTokenChars(t, p, i - n);
        assert Letter(s[p + n]) && AllTokenChars(s, p + n, i);
      }
    }
  }

  ghost predicate Matches(s: string, from: nat, t: string) {
    exists i, j | from <= i <= j <= |s| :: TokenAt(s, i, j) && t == s[i..j]
  }

  lemma MatchesBehind(s: string, n: nat, t: string)
    requires 0 < n <= |s|
    requires (forall p | 0 <= p < n :: !Letter(s[p])) || n == |s| || !TokenChar(s[n])
    ensures Matches(s, n, t) <==> Matches(s[n..], 0, t)
  {
    hide TokenAt;
    if Matches(s, n, t) {
      var i, j :| n <= i <= j <= |s| && TokenAt(s, i, j) && t == s[i..j];
      TokenInside(s, i, j);
      TokenShift(s, n, i, j);
      assert s[n..][i - n..j - n] == s[i..j];
    }
    if Matches(s[n..], 0, t) {
      var i, j :| 0 <= i <= j <= |s[n..]| && TokenAt(s[n..], i, j) && t == s[n..][i..j];
      TokenInside(s[n..], i, j);
      TokenShift(s, n, i + n, j + n);
      assert s[n..][i..j] == s[i + n..j + n];
    }
  }

  lemma TokenInside(s: string, i: nat, j: nat)
    requires TokenAt(s, i, j)
    ensures i + 3 <= j <= |s|
  {
  }

  /** The only match that starts inside the first run of a text that starts with a letter is that run. */
  lemma FirstMatch(s: string, i: nat, j: nat)
    requires s != "" && Letter(s[0]) && i < RunLength(s)
    ensures TokenAt(s, i, j) <==> i == 0 && j == RunLength(s) && j >= 3
  {
    if i > 0 {
      assert Letter(s[0]) && AllTokenChars(s, 0, i);
    }
  }

  /** The content tokens of a text are exactly its matches. */
  lemma {:induction false} TokensAreMatches(s: string, t: string)
    ensures t in Tokens(s) <==> Matches(s, 0, t)
    decreases |s|
  {
    if s == "" {
    } else if !Letter(s[0]) {
      TokensAreMatches(s[1..], t);
      MatchesBehind(s, 1, t);
      assert forall j :: !TokenAt(s, 0, j);
    } else {
      var n := RunLength(s);
      assert TokenChar(s[0]) && n > 0;
      TokensAreMatches(s[n..], t);
      MatchesBehind(s, n, t);
      forall i: nat, j: nat | i < n
        ensures TokenAt(s, i, j) <==> i == 0 && j == n && j >= 3
      {
        FirstMatch(s, i, j);
      }
      hide TokenAt, RunLength;
      assert n >= 3 ==> TokenAt(s, 0, n) && s[0..n] == s[..n];
    }
  }
}
