/**
 * The string primitives of the resolver's two `while` loops: `strpos`,
 * `substr_replace`, and the repeated replacement of the leftmost
 * `{random_identifier}` by a fresh `bin2hex(random_bytes(5))`.
 */
module Placeholder {
  import opened Basics
  import opened Hex

  const Token: string := "{random_identifier}"

  /** `t` occurs in `s` starting at index `j`. */
  predicate OccursAt(s: string, t: string, j: int) {
    0 <= j && j + |t| <= |s| && s[j..j + |t|] == t
  }

  predicate HasPlaceholder(s: string) {
    exists j | 0 <= j <= |s| :: OccursAt(s, Token, j)
  }

  function StrposFrom(s: string, t: string, i: nat): (r: Option<nat>)
    ensures r.Some? ==> i <= r.value && OccursAt(s, t, r.value)
    ensures r.Some? ==> forall j :: i <= j < r.value ==> !OccursAt(s, t, j)
    ensures r.None? ==> forall j :: i <= j ==> !OccursAt(s, t, j)
    decreases |s| - i
  {
    if i + |t| > |s| then None
    else if s[i..i + |t|] == t then Some(i)
    else StrposFrom(s, t, i + 1)
  }

  /** `strpos($s, $t)`: the leftmost occurrence, `None` standing for `false`. */
  function Strpos(s: string, t: string): (r: Option<nat>)
    ensures r.Some? ==> OccursAt(s, t, r.value) && forall j :: 0 <= j < r.value ==> !OccursAt(s, t, j)
    ensures r.None? <==> forall j :: !OccursAt(s, t, j)
  {
    StrposFrom(s, t, 0)
  }

  /** `substr_replace($s, $r, $pos, $len)` with an in-range position and length. */
  function SubstrReplace(s: string, r: string, pos: nat, len: nat): (u: string)
    requires pos + len <= |s|
    ensures |u| == |s| - len + |r|
    ensures u[..pos] == s[..pos] && u[pos..pos + |r|] == r && u[pos + |r|..] == s[pos + len..]
  {
    s[..pos] + r + s[pos + len..]
  }

  /** Number of `{` characters: the measure that every replacement lowers by one. */
  function BraceCount(s: string): nat {
    multiset(s)['{']
  }

  /** Occurrences of the placeholder, counted left to right without overlap. */
  function Occurrences(s: string): nat
    decreases |s|
  {
    if |s| < |Token| then 0
    else if s[..|Token|] == Token then 1 + Occurrences(s[|Token|..])
    else Occurrences(s[1..])
  }

  /** One pass of a `while` loop of `computeParameters`. */
  function ReplaceFirst(s: string, id: string): (u: string)
    requires Strpos(s, Token).Some?
  {
    SubstrReplace(s, id, Strpos(s, Token).value, |Token|)
  }

  lemma {:induction false} OccurrencesSkip(s: string, p: nat)
    requires p <= |s|
    requires forall j :: 0 <= j < p ==> !OccursAt(s, Token, j)
    ensures Occurrences(s) == Occurrences(s[p..])
    decreases p
  {
    if p > 0 {
      if |s| < |Token| {
        assert |s[p..]| < |Token|;
      } else {
        assert !OccursAt(s, Token, 0);
        assert s[..|Token|] != Token;
        forall j | 0 <= j < p - 1
          ensures !OccursAt(s[1..], Token, j)
        {
          assert !OccursAt(s, Token, j + 1);
          if j + |Token| <= |s[1..]| {
            assert s[1..][j..j + |Token|] == s[j + 1..j + 1 + |Token|];
          }
        }
        OccurrencesSkip(s[1..], p - 1);
        assert s[1..][p - 1..] == s[p..];
      }
    }
  }

  lemma OccurrencesAtLeftmost(s: string, p: nat)
    requires OccursAt(s, Token, p)
    requires forall j :: 0 <= j < p ==> !OccursAt(s, Token, j)
    ensures Occurrences(s) == 1 + Occurrences(s[p + |Token|..])
  {
    OccurrencesSkip(s, p);
    assert s[p..][..|Token|] == Token;
    assert s[p..][|Token|..] == s[p + |Token|..];
  }

  /** No three consecutive characters of the placeholder after its `{` are hex digits. */
  lemma TokenHasNoHexTriple(k: int)
    requires 1 <= k <= |Token| - 3
    ensures !(IsLowerHex(Token[k]) && IsLowerHex(Token[k + 1]) && IsLowerHex(Token[k + 2]))
  {
  }

  lemma HexHasNoBrace(h: string)
    requires IsLowerHexString(h)
    ensures '{' !in h && multiset(h)['{'] == 0
  {
    forall i | 0 <= i < |h|
      ensures h[i] != '{'
    {
      assert IsLowerHex(h[i]);
    }
  }

  /** A string whose character at `j` is not `{` has no placeholder starting at `j`. */
  lemma NotBraceNoOccurrence(s: string, j: int)
    requires 0 <= j < |s| && s[j] != '{'
    ensures !OccursAt(s, Token, j)
  {
    if j + |Token| <= |s| {
      assert s[j..j + |Token|][0] == s[j];
    }
  }

  /** The placeholder's `{` is its first character and only there. */
  lemma TokenBraceOnlyFirst(i: int)
    requires 1 <= i < |Token|
    ensures Token[i] != '{'
  {
  }

  /**
   * The text from `j` to the end of `a` could begin a placeholder: it is a
   * whole placeholder, or it is cut off by the end of `a` and agrees with
   * the start of one.
   */
  predicate PartialAt(a: string, j: int)
    requires 0 <= j < |a|
  {
    if j + |Token| <= |a| then a[j..j + |Token|] == Token else a[j..] == Token[..|a| - j]
  }

  /** No placeholder can start inside `a`, whatever text follows it. */
  predicate Shielded(a: string) {
    forall j | 0 <= j < |a| :: !PartialAt(a, j)
  }

  lemma ShieldedNoOccurrence(a: string, x: string, j: int)
    requires Shielded(a) && 0 <= j < |a|
    ensures !OccursAt(a + x, Token, j)
  {
    var s, n := a + x, |Token|;
    assert !PartialAt(a, j);
    if j + n <= |s| {
      if j + n <= |a| {
        assert s[j..j + n] == a[j..j + n];
      } else {
        assert s[..|a|] == a;
        assert s[j..j + n][..|a| - j] == s[..|a|][j..];
      }
    }
  }

  /**
   * Text without placeholder followed by ten hex digits is shielded: a
   * placeholder reaching into the digits would need a hex digit where it
   * has `}`, or three hex digits in a row after its `{`.
   */
  lemma ShieldedAfterIdentifier(a: string, id: string)
    requires !HasPlaceholder(a) && |id| == 10 && IsLowerHexString(id)
    ensures Shielded(a + id)
  {
    forall j | 0 <= j < |a + id|
      ensures !PartialAt(a + id, j)
    {
      NotPartialAroundIdentifier(a, id, j);
    }
  }

  lemma NotPartialAroundIdentifier(a: string, id: string, j: int)
    requires !HasPlaceholder(a) && |id| == 10 && IsLowerHexString(id)
    requires 0 <= j < |a| + |id|
    ensures !PartialAt(a + id, j)
  {
    var w, n := a + id, |Token|;
    if j >= |a| {
      assert w[j..][0] == id[j - |a|];
      assert IsLowerHex(id[j - |a|]);
    } else if j + n <= |a| {
      assert w[j..j + n] == a[j..j + n];
      assert !OccursAt(a, Token, j);
    } else if j + n <= |w| {
      assert w[j..j + n][n - 1] == id[j + n - 1 - |a|];
      assert IsLowerHex(id[j + n - 1 - |a|]);
    } else {
      var m := |a| - j;
      assert w[j..][m] == id[0] && w[j..][m + 1] == id[1] && w[j..][m + 2] == id[2];
      assert IsLowerHex(id[0]) && IsLowerHex(id[1]) && IsLowerHex(id[2]);
      TokenHasNoHexTriple(m);
      var t := Token[..|w| - j];
      assert t[m] == Token[m] && t[m + 1] == Token[m + 1] && t[m + 2] == Token[m + 2];
    }
  }

  /**
   * Replacing the leftmost placeholder by ten hex digits creates no new
   * occurrence before the end of those digits.
   */
  lemma NoOccurrenceBeforeIdentifierEnd(s: string, p: nat, id: string, j: int)
    requires OccursAt(s, Token, p)
    requires forall i :: 0 <= i < p ==> !OccursAt(s, Token, i)
    requires |id| == 10 && IsLowerHexString(id)
    requires 0 <= j < p + |id|
    ensures !OccursAt(SubstrReplace(s, id, p, |Token|), Token, j)
  {
    var a := s[..p];
    forall i | 0 <= i <= |a|
      ensures !OccursAt(a, Token, i)
    {
      if i + |Token| <= |a| {
        assert a[i..i + |Token|] == s[i..i + |Token|];
        assert !OccursAt(s, Token, i);
      }
    }
    ShieldedAfterIdentifier(a, id);
    assert SubstrReplace(s, id, p, |Token|) == (a + id) + s[p + |Token|..];
    ShieldedNoOccurrence(a + id, s[p + |Token|..], j);
  }

  /** Only the leftmost placeholder changes, into the identifier; prefix and suffix stay. */
  lemma ReplaceFirstShape(s: string, id: string)
    requires Strpos(s, Token).Some?
    ensures var p, u := Strpos(s, Token).value, ReplaceFirst(s, id);
      && u == s[..p] + id + s[p + |Token|..]
      && s == s[..p] + Token + s[p + |Token|..]
      && u[..p] == s[..p] && u[p..p + |id|] == id && u[p + |id|..] == s[p + |Token|..]
      && |u| == |s| - |Token| + |id|
  {
  }

  lemma BraceCountConcat(a: string, t: string, b: string)
    ensures BraceCount(a + t + b) == BraceCount(a) + BraceCount(t) + BraceCount(b)
  {
    assert multiset(a + t + b) == multiset(a) + multiset(t) + multiset(b);
  }

  lemma TokenBraceCount()
    ensures BraceCount(Token) == 1
  {
    var rest := Token[1..];
    assert Token == [Token[0]] + rest;
    forall i | 0 <= i < |rest|
      ensures rest[i] != '{'
    {
      assert rest[i] == Token[i + 1];
    }
    assert multiset(Token) == multiset([Token[0]]) + multiset(rest);
  }

  lemma ReplaceFirstBraces(s: string, id: string)
    requires Strpos(s, Token).Some?
    requires IsLowerHexString(id)
    ensures BraceCount(ReplaceFirst(s, id)) == BraceCount(s) - 1
  {
    var p := Strpos(s, Token).value;
    ReplaceFirstShape(s, id);
    HexHasNoBrace(id);
    TokenBraceCount();
    BraceCountConcat(s[..p], Token, s[p + |Token|..]);
    BraceCountConcat(s[..p], id, s[p + |Token|..]);
  }

  lemma ReplaceFirstOccurrences(s: string, id: string)
    requires Strpos(s, Token).Some?
    requires |id| == 10 && IsLowerHexString(id)
    ensures Occurrences(ReplaceFirst(s, id)) == Occurrences(s) - 1
  {
    var p := Strpos(s, Token).value;
    var u := ReplaceFirst(s, id);
    ReplaceFirstShape(s, id);
    OccurrencesAtLeftmost(s, p);
    forall j | 0 <= j < p + 10
      ensures !OccursAt(u, Token, j)
    {
      NoOccurrenceBeforeIdentifierEnd(s, p, id, j);
    }
    OccurrencesSkip(u, p + 10);
  }

  /**
   * One replacement pass: only the leftmost placeholder changes, into the
   * identifier; prefix and suffix are kept; the string loses nine characters,
   * one `{` and exactly one placeholder occurrence.
   */
  lemma ReplaceFirstStep(s: string, id: string)
    requires Strpos(s, Token).Some?
    requires |id| == 10 && IsLowerHexString(id)
    ensures var p, u := Strpos(s, Token).value, ReplaceFirst(s, id);
      && u[..p] == s[..p] && u[p..p + 10] == id && u[p + 10..] == s[p + |Token|..]
      && |u| == |s| - 9
      && BraceCount(u) == BraceCount(s) - 1
      && Occurrences(u) == Occurrences(s) - 1
  {
    ReplaceFirstShape(s, id);
    ReplaceFirstBraces(s, id);
    ReplaceFirstOccurrences(s, id);
  }

  /**
   * The `while` loop as a function: replace the leftmost placeholder by the
   * identifier of draw `k`, then draw `k + 1` for the next, until none is left.
   */
  function Expand(s: string, entropy: nat -> Bytes5, k: nat): (r: string)
    ensures !HasPlaceholder(r)
    ensures |r| == |s| - 9 * Occurrences(s)
    decreases BraceCount(s)
  {
    match Strpos(s, Token)
    case None =>
      OccurrencesSkip(s, |s|);
      s
    case Some(_) =>
      ReplaceFirstStep(s, RandomIdentifier(entropy(k)));
      Expand(ReplaceFirst(s, RandomIdentifier(entropy(k))), entropy, k + 1)
  }

  /** A string without placeholder is left as it is, and counts none. */
  lemma NoPlaceholderUnchanged(s: string, entropy: nat -> Bytes5, k: nat)
    requires !HasPlaceholder(s)
    ensures Expand(s, entropy, k) == s && Occurrences(s) == 0
  {
    OccurrencesSkip(s, |s|);
  }

  /** `Occurrences` counts zero exactly when there is no placeholder. */
  lemma OccurrencesZeroIff(s: string)
    ensures Occurrences(s) == 0 <==> !HasPlaceholder(s)
  {
    match Strpos(s, Token)
    case None => OccurrencesSkip(s, |s|);
    case Some(p) => OccurrencesAtLeftmost(s, p);
  }

  /** A placeholder after text that holds none is the leftmost one. */
  lemma StrposAfterPlaceholderFree(a: string, b: string)
    requires !HasPlaceholder(a)
    ensures Strpos(a + Token + b, Token) == Some(|a|)
  {
    var s, n := a + Token + b, |Token|;
    assert s[|a|..|a| + n] == Token;
    forall j | 0 <= j < |a|
      ensures !OccursAt(s, Token, j)
    {
      if j + n <= |a| {
        assert s[j..j + n] == a[j..j + n];
        assert !OccursAt(a, Token, j);
      } else {
        assert s[j..j + n][|a| - j] == s[|a|] == '{';
        TokenBraceOnlyFirst(|a| - j);
      }
    }
    StrposIsLeftmost(s, |a|);
  }

  lemma BraceFreeHasNoPlaceholder(s: string)
    requires '{' !in s
    ensures !HasPlaceholder(s)
  {
    forall j | 0 <= j < |s|
      ensures !OccursAt(s, Token, j)
    {
      NotBraceNoOccurrence(s, j);
    }
  }

  /** Expanding `a + placeholder + b` where neither `a` nor `b` holds a placeholder. */
  lemma ExpandSingle(a: string, b: string, entropy: nat -> Bytes5, k: nat)
    requires !HasPlaceholder(a) && !HasPlaceholder(b)
    ensures Expand(a + Token + b, entropy, k) == a + RandomIdentifier(entropy(k)) + b
  {
    ExpandFirstOccurrence(a, b, entropy, k);
    NoPlaceholderUnchanged(b, entropy, k + 1);
  }

  /** A shielded prefix passes through the expansion untouched. */
  lemma {:induction false} ExpandShieldedPrefix(a: string, rest: string, entropy: nat -> Bytes5, k: nat)
    requires Shielded(a)
    ensures Expand(a + rest, entropy, k) == a + Expand(rest, entropy, k)
    decreases BraceCount(rest)
  {
    var s := a + rest;
    match Strpos(rest, Token)
    case None =>
      ShieldedPrefixNoPlaceholder(a, rest);
      NoPlaceholderUnchanged(s, entropy, k);
      NoPlaceholderUnchanged(rest, entropy, k);
    case Some(q) =>
      var id := RandomIdentifier(entropy(k));
      ReplaceFirstUnderPrefix(a, rest, id);
      ExpandUnfold(s, entropy, k);
      ExpandUnfold(rest, entropy, k);
      ReplaceFirstBraces(rest, id);
      ExpandShieldedPrefix(a, ReplaceFirst(rest, id), entropy, k + 1);
  }

  /** An occurrence with none before it is the one `strpos` reports. */
  lemma StrposIsLeftmost(s: string, p: nat)
    requires OccursAt(s, Token, p)
    requires forall j :: 0 <= j < p ==> !OccursAt(s, Token, j)
    ensures Strpos(s, Token) == Some(p)
  {
    var r := Strpos(s, Token);
    assert OccursAt(s, Token, p);
    assert !(r.value < p);
    assert !(p < r.value);
  }

  /** A shielded prefix moves the leftmost placeholder by its length. */
  lemma StrposUnderPrefix(a: string, rest: string)
    requires Shielded(a) && Strpos(rest, Token).Some?
    ensures Strpos(a + rest, Token) == Some(|a| + Strpos(rest, Token).value)
  {
    var q := Strpos(rest, Token).value;
    var s := a + rest;
    assert s[|a| + q..|a| + q + |Token|] == rest[q..q + |Token|];
    forall j | 0 <= j < |a| + q
      ensures !OccursAt(s, Token, j)
    {
      if j < |a| {
        ShieldedNoOccurrence(a, rest, j);
      } else if j + |Token| <= |s| {
        assert s[j..j + |Token|] == rest[j - |a|..j - |a| + |Token|];
        assert !OccursAt(rest, Token, j - |a|);
      }
    }
    StrposIsLeftmost(s, |a| + q);
  }

  /** `substr_replace` behind an untouched prefix. */
  lemma SubstrReplaceUnderPrefix(a: string, rest: string, r: string, pos: nat, len: nat)
    requires pos + len <= |rest|
    ensures SubstrReplace(a + rest, r, |a| + pos, len) == a + SubstrReplace(rest, r, pos, len)
  {
    var s := a + rest;
    assert s[..|a| + pos] == a + rest[..pos];
    assert s[|a| + pos + len..] == rest[pos + len..];
  }

  lemma ReplaceFirstUnderPrefix(a: string, rest: string, id: string)
    requires Shielded(a) && Strpos(rest, Token).Some?
    ensures Strpos(a + rest, Token) == Some(|a| + Strpos(rest, Token).value)
    ensures ReplaceFirst(a + rest, id) == a + ReplaceFirst(rest, id)
  {
    StrposUnderPrefix(a, rest);
    SubstrReplaceUnderPrefix(a, rest, id, Strpos(rest, Token).value, |Token|);
  }

  lemma ShieldedPrefixNoPlaceholder(a: string, rest: string)
    requires Shielded(a) && !HasPlaceholder(rest)
    ensures !HasPlaceholder(a + rest)
  {
    var s := a + rest;
    forall j | 0 <= j <= |s|
      ensures !OccursAt(s, Token, j)
    {
      if j < |a| {
        ShieldedNoOccurrence(a, rest, j);
      } else if j + |Token| <= |s| {
        assert s[j..j + |Token|] == rest[j - |a|..j - |a| + |Token|];
        assert !OccursAt(rest, Token, j - |a|);
      }
    }
  }

  /**
   * Expanding `a + placeholder + rest` where `a` holds no placeholder: the
   * placeholder takes the current draw and `rest` is expanded from the next.
   */
  lemma ExpandFirstOccurrence(a: string, rest: string, entropy: nat -> Bytes5, k: nat)
    requires !HasPlaceholder(a)
    ensures Expand(a + Token + rest, entropy, k) == a + RandomIdentifier(entropy(k)) + Expand(rest, entropy, k + 1)
  {
    var id := RandomIdentifier(entropy(k));
    calc {
      Expand(a + Token + rest, entropy, k);
    == { ReplaceFirstAfterPlaceholderFree(a, rest, id); ExpandUnfold(a + Token + rest, entropy, k); }
      Expand((a + id) + rest, entropy, k + 1);
    == { ShieldedAfterIdentifier(a, id); ExpandShieldedPrefix(a + id, rest, entropy, k + 1); }
      (a + id) + Expand(rest, entropy, k + 1);
    }
  }

  lemma ReplaceFirstAfterPlaceholderFree(a: string, rest: string, id: string)
    requires !HasPlaceholder(a)
    ensures Strpos(a + Token + rest, Token) == Some(|a|)
    ensures ReplaceFirst(a + Token + rest, id) == (a + id) + rest
  {
    var s := a + Token + rest;
    StrposAfterPlaceholderFree(a, rest);
    ReplaceFirstShape(s, id);
    assert s[..|a|] == a && s[|a| + |Token|..] == rest;
  }

  lemma ExpandUnfold(s: string, entropy: nat -> Bytes5, k: nat)
    requires Strpos(s, Token).Some?
    ensures Expand(s, entropy, k) == Expand(ReplaceFirst(s, RandomIdentifier(entropy(k))), entropy, k + 1)
  {
  }

  /** A leading placeholder followed by text without placeholder. */
  lemma ExpandSingleBare(b: string, entropy: nat -> Bytes5, k: nat)
    requires !HasPlaceholder(b)
    ensures Expand(Token + b, entropy, k) == RandomIdentifier(entropy(k)) + b
  {
    var e: string := [];
    assert Token + b == e + Token + b;
    ExpandSingle(e, b, entropy, k);
    assert e + RandomIdentifier(entropy(k)) + b == RandomIdentifier(entropy(k)) + b;
  }

  /** Three placeholders between separators that hold none: three consecutive draws. */
  lemma ExpandThree(a: string, b: string, c: string, d: string, entropy: nat -> Bytes5, k: nat)
    requires !HasPlaceholder(a) && !HasPlaceholder(b) && !HasPlaceholder(c) && !HasPlaceholder(d)
    ensures Expand(a + Token + b + Token + c + Token + d, entropy, k)
         == a + RandomIdentifier(entropy(k)) + b + RandomIdentifier(entropy(k + 1)) + c + RandomIdentifier(entropy(k + 2)) + d
  {
    var id0, id1, id2 := RandomIdentifier(entropy(k)), RandomIdentifier(entropy(k + 1)), RandomIdentifier(entropy(k + 2));
    calc {
      Expand(a + Token + b + Token + c + Token + d, entropy, k);
    == { assert a + Token + b + Token + c + Token + d == a + Token + (b + Token + (c + Token + d)); }
      Expand(a + Token + (b + Token + (c + Token + d)), entropy, k);
    == { ExpandFirstOccurrence(a, b + Token + (c + Token + d), entropy, k); }
      a + id0 + Expand(b + Token + (c + Token + d), entropy, k + 1);
    == { ExpandFirstOccurrence(b, c + Token + d, entropy, k + 1); }
      a + id0 + (b + id1 + Expand(c + Token + d, entropy, k + 2));
    == { ExpandFirstOccurrence(c, d, entropy, k + 2); NoPlaceholderUnchanged(d, entropy, k + 3); }
      a + id0 + (b + id1 + (c + id2 + d));
    == { assert a + id0 + (b + id1 + (c + id2 + d)) == a + id0 + b + id1 + c + id2 + d; }
      a + id0 + b + id1 + c + id2 + d;
    }
  }

  lemma ExpandThreeBare(b: string, c: string, entropy: nat -> Bytes5, k: nat)
    requires !HasPlaceholder(b) && !HasPlaceholder(c)
    ensures Expand(Token + b + Token + c + Token, entropy, k)
         == RandomIdentifier(entropy(k)) + b + RandomIdentifier(entropy(k + 1)) + c + RandomIdentifier(entropy(k + 2))
  {
    var e: string := [];
    assert Token + b + Token + c + Token == e + Token + b + Token + c + Token + e;
    ExpandThree(e, b, c, e, entropy, k);
    var id0, id1, id2 := RandomIdentifier(entropy(k)), RandomIdentifier(entropy(k + 1)), RandomIdentifier(entropy(k + 2));
    assert e + id0 + b + id1 + c + id2 + e == id0 + b + id1 + c + id2;
  }
}
