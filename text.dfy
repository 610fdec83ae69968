/** String helpers shared by the models: ASCII case folding, substring search,
    splitting on a separator, whitespace trimming and POSIX path pieces. */
module Text {

  /** ASCII lower-casing of one character. */
  function LowerChar(c: char): char {
    if 'A' <= c <= 'Z' then (c as int + 32) as char else c
  }

  function Lower(s: string): (r: string)
    ensures |r| == |s|
    ensures forall i :: 0 <= i < |s| ==> r[i] == LowerChar(s[i])
  {
    seq(|s|, i requires 0 <= i < |s| => LowerChar(s[i]))
  }

  predicate IsPrefix(p: string, s: string) {
    |p| <= |s| && p == s[..|p|]
  }

  /** `w in s` for strings: some position of `s` starts with `w`. */
  predicate Contains(s: string, w: string)
    decreases |s|
  {
    IsPrefix(w, s) || (|s| > 0 && Contains(s[1..], w))
  }

  /** Case-insensitive search of a lower-case needle, as an `re.IGNORECASE` alternative does. */
  predicate ContainsIgnoreCase(s: string, w: string) {
    Contains(Lower(s), w)
  }

  lemma {:induction false} ContainsAt(s: string, w: string, i: nat)
    requires i + |w| <= |s| && s[i..i + |w|] == w
    ensures Contains(s, w)
    decreases i
  {
    if i > 0 {
      assert s[1..][i - 1..i - 1 + |w|] == w;
      ContainsAt(s[1..], w, i - 1);
    }
  }

  lemma {:induction false} ContainsWitness(s: string, w: string) returns (i: nat)
    requires Contains(s, w)
    ensures i + |w| <= |s| && s[i..i + |w|] == w
    decreases |s|
  {
    if IsPrefix(w, s) {
      i := 0;
    } else {
      var j := ContainsWitness(s[1..], w);
      i := j + 1;
      assert s[1..][j..j + |w|] == s[i..i + |w|];
    }
  }

  lemma ContainsSuffix(s: string, k: nat, w: string)
    requires k <= |s| && Contains(s[k..], w)
    ensures Contains(s, w)
  {
    var j := ContainsWitness(s[k..], w);
    assert s[k..][j..j + |w|] == s[k + j..k + j + |w|];
    ContainsAt(s, w, k + j);
  }

  /** Substring search is transitive: a needle found inside a substring is found in the whole. */
  lemma ContainsTrans(s: string, u: string, w: string)
    requires Contains(s, u) && Contains(u, w)
    ensures Contains(s, w)
  {
    var i := ContainsWitness(s, u);
    var j := ContainsWitness(u, w);
    assert s[i + j..i + j + |w|] == w by {
      forall k | 0 <= k < |w| ensures s[i + j + k] == w[k] {
        assert w[k] == u[j + k] == s[i..i + |u|][j + k];
      }
    }
    ContainsAt(s, w, i + j);
  }

  /** Every character of a needle that occurs in the text occurs in the text. */
  lemma ContainsChar(s: string, w: string, x: char)
    requires Contains(s, w) && x in w
    ensures x in s
  {
    var i := ContainsWitness(s, w);
    assert x in s[i..i + |w|];
  }

  lemma EmptyContainsNothing(w: string)
    requires |w| > 0
    ensures !Contains("", w)
  {
  }

  /** `s.split(c)` of Python and JavaScript: always at least one piece. */
  function Split(s: string, c: char): (r: seq<string>)
    ensures |r| >= 1
    decreases |s|
  {
    if |s| == 0 then [""]
    else if s[0] == c then [""] + Split(s[1..], c)
    else
      var rest := Split(s[1..], c);
      [[s[0]] + rest[0]] + rest[1..]
  }

  /** `c.join(parts)`. */
  function Join(parts: seq<string>, c: char): string
    decreases |parts|
  {
    if |parts| == 0 then ""
    else if |parts| == 1 then parts[0]
    else parts[0] + [c] + Join(parts[1..], c)
  }

  /** Splitting and re-joining on the same separator gives back the text, and no piece holds the separator. */
  lemma {:induction false} SplitJoin(s: string, c: char)
    ensures Join(Split(s, c), c) == s
    ensures forall k :: 0 <= k < |Split(s, c)| ==> c !in Split(s, c)[k]
    decreases |s|
  {
    if |s| > 0 {
      SplitJoin(s[1..], c);
      var rest := Split(s[1..], c);
      if s[0] == c {
        assert Split(s, c) == [""] + rest;
        assert s == [c] + s[1..];
      } else {
        var parts := Split(s, c);
        assert parts == [[s[0]] + rest[0]] + rest[1..];
        if |rest| == 1 {
          assert s == [s[0]] + rest[0];
        } else {
          assert rest == [rest[0]] + rest[1..];
          assert Join(rest, c) == rest[0] + [c] + Join(rest[1..], c);
          assert parts[1..] == rest[1..];
          assert s == ([s[0]] + rest[0]) + [c] + Join(rest[1..], c);
        }
      }
    }
  }

  /** A separator-free needle is a prefix of the text iff it is a prefix of the first piece. */
  lemma {:induction false} PrefixFirstPiece(s: string, c: char, w: string)
    requires c !in w
    ensures IsPrefix(w, s) <==> IsPrefix(w, Split(s, c)[0])
    decreases |s|
  {
    if |s| > 0 && s[0] != c && |w| > 0 {
      PrefixFirstPiece(s[1..], c, w[1..]);
      var r0 := Split(s[1..], c)[0];
      assert Split(s, c)[0] == [s[0]] + r0;
      assert IsPrefix(w, s) <==> w[0] == s[0] && IsPrefix(w[1..], s[1..]);
      assert IsPrefix(w, [s[0]] + r0) <==> w[0] == s[0] && IsPrefix(w[1..], r0);
    } else if |s| > 0 && s[0] == c && |w| > 0 {
      assert w[0] != c;
    }
  }

  /** Some piece of `parts` contains `w`, checked piece by piece. */
  predicate SomePieceContains(parts: seq<string>, w: string)
    decreases |parts|
  {
    |parts| > 0 && (Contains(parts[0], w) || SomePieceContains(parts[1..], w))
  }

  lemma {:induction false} SomePieceContainsIff(parts: seq<string>, w: string)
    ensures SomePieceContains(parts, w) <==> exists k :: 0 <= k < |parts| && Contains(parts[k], w)
    decreases |parts|
  {
    if |parts| > 0 {
      SomePieceContainsIff(parts[1..], w);
      assert forall k :: 1 <= k < |parts| ==> parts[k] == parts[1..][k - 1];
      if exists k :: 0 <= k < |parts| && Contains(parts[k], w) {
        var k :| 0 <= k < |parts| && Contains(parts[k], w);
        if k > 0 {
          assert Contains(parts[1..][k - 1], w);
        }
      }
    }
  }

  /** A non-empty, separator-free needle occurs in the text iff it occurs in one of its pieces. */
  lemma ContainsInSomePiece(s: string, c: char, w: string)
    requires |w| > 0 && c !in w
    ensures Contains(s, w) <==> exists k :: 0 <= k < |Split(s, c)| && Contains(Split(s, c)[k], w)
  {
    ContainsInPieces(s, c, w);
    SomePieceContainsIff(Split(s, c), w);
  }

  lemma {:induction false} ContainsInPieces(s: string, c: char, w: string)
    requires |w| > 0 && c !in w
    ensures Contains(s, w) <==> SomePieceContains(Split(s, c), w)
    decreases |s|
  {
    var parts := Split(s, c);
    if |s| == 0 {
      assert parts == [""];
      assert parts[1..] == [];
    } else {
      ContainsInPieces(s[1..], c, w);
      var rest := Split(s[1..], c);
      if s[0] == c {
        assert parts == [""] + rest;
        assert parts[1..] == rest;
        assert !IsPrefix(w, s) by { assert w[0] != c; }
      } else {
        var p0 := parts[0];
        assert parts == [p0] + rest[1..];
        assert parts[1..] == rest[1..];
        PrefixFirstPiece(s, c, w);
        assert p0[1..] == rest[0];
        assert Contains(p0, w) <==> IsPrefix(w, p0) || Contains(rest[0], w);
        assert SomePieceContains(rest, w) <==> Contains(rest[0], w) || SomePieceContains(rest[1..], w);
      }
    }
  }

  /** The text after the last `c` (all of `s` when it holds no `c`). */
  function AfterLast(s: string, c: char): (r: string)
    ensures |r| <= |s| && r == s[|s| - |r|..]
    ensures c !in r
    ensures c in s ==> |r| < |s| && s[|s| - |r| - 1] == c
    ensures c !in s ==> r == s
    decreases |s|
  {
    if |s| == 0 then ""
    else if s[|s| - 1] == c then ""
    else
      var r := AfterLast(s[..|s| - 1], c) + [s[|s| - 1]];
      assert s == s[..|s| - 1] + [s[|s| - 1]];
      r
  }

  predicate AllChar(s: string, c: char) {
    forall i :: 0 <= i < |s| ==> s[i] == c
  }

  /** `s.rstrip(c)` for a single character. */
  function StripTrailing(s: string, c: char): (r: string)
    ensures IsPrefix(r, s)
    ensures |r| == 0 || r[|r| - 1] != c
    decreases |s|
  {
    if |s| > 0 && s[|s| - 1] == c then StripTrailing(s[..|s| - 1], c) else s
  }

  /** POSIX `os.path.basename`: the text after the last '/'. */
  function Basename(p: string): string {
    AfterLast(p, '/')
  }

  /** POSIX `os.path.dirname`: the text before the last '/', with trailing slashes
      removed unless it consists of slashes only. */
  function Dirname(p: string): string {
    var head := p[..|p| - |Basename(p)|];
    if head != "" && !AllChar(head, '/') then StripTrailing(head, '/') else head
  }

  predicate IsSpace(c: char) {
    c == ' ' || c == '\t' || c == '\n' || c == '\r' || c == '\U{B}' || c == '\U{C}'
  }

  function TrimStart(s: string): (r: string)
    ensures |r| <= |s| && r == s[|s| - |r|..]
    ensures |r| == 0 || !IsSpace(r[0])
    decreases |s|
  {
    if |s| > 0 && IsSpace(s[0]) then TrimStart(s[1..]) else s
  }

  function TrimEnd(s: string): (r: string)
    ensures IsPrefix(r, s)
    ensures |r| == 0 || !IsSpace(r[|r| - 1])
    decreases |s|
  {
    if |s| > 0 && IsSpace(s[|s| - 1]) then TrimEnd(s[..|s| - 1]) else s
  }

  /** Python `str.strip()` and JavaScript `String.prototype.trim()` on ASCII whitespace. */
  function Trim(s: string): (r: string)
    ensures |r| <= |s|
    ensures |r| == 0 || (!IsSpace(r[0]) && !IsSpace(r[|r| - 1]))
  {
    TrimEnd(TrimStart(s))
  }

  /** No whitespace at either end. */
  predicate Trimmed(s: string) {
    |s| == 0 || (!IsSpace(s[0]) && !IsSpace(s[|s| - 1]))
  }

  lemma TrimmedIsFixed(s: string)
    requires Trimmed(s)
    ensures Trim(s) == s
  {
  }

  /** Trimming twice is trimming once. */
  lemma TrimIdempotent(s: string)
    ensures Trimmed(Trim(s)) && Trim(Trim(s)) == Trim(s)
  {
    TrimmedIsFixed(Trim(s));
  }

  /** Index of the first `c` in `s`, or -1. */
  function IndexOf(s: string, c: char): (r: int)
    ensures -1 <= r < |s|
    ensures r >= 0 ==> s[r] == c && c !in s[..r]
    ensures r < 0 ==> c !in s
    decreases |s|
  {
    if |s| == 0 then -1
    else if s[0] == c then 0
    else
      var k := IndexOf(s[1..], c);
      if k < 0 then -1
      else
        assert s[..k + 1] == [s[0]] + s[1..][..k];
        k + 1
  }

  predicate IsDigit(c: char) {
    '0' <= c <= '9'
  }

  function DigitsValue(s: string): nat
    requires forall i :: 0 <= i < |s| ==> IsDigit(s[i])
    decreases |s|
  {
    if |s| == 0 then 0
    else
      assert IsDigit(s[|s| - 1]);
      DigitsValue(s[..|s| - 1]) * 10 + (s[|s| - 1] as int - '0' as int)
  }

  /** A non-empty run of ASCII digits read as a decimal number; anything else fails. */
  function ParseNat(s: string): (r: Option<nat>)
    ensures r.Some? <==> |s| > 0 && forall i :: 0 <= i < |s| ==> IsDigit(s[i])
  {
    if |s| > 0 && forall i :: 0 <= i < |s| ==> IsDigit(s[i]) then Some(DigitsValue(s)) else None
  }

  datatype Option<+T> = None | Some(value: T) {
    function GetOr(default: T): T {
      match this
      case Some(v) => v
      case None => default
    }
  }
}
