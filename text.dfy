/**
 * The few string operations the bot applies to configuration text and to
 * token symbols: whitespace trimming as `str.strip()` does it, case folding
 * as `str.upper()` / `str.lower()` do it on ASCII letters, and splitting on a
 * separator as `str.split(sep)` does it.
 */
module Text {

  /** The characters for which Python's `str.isspace()` holds. */
  predicate IsSpace(c: char) {
    || c == ' ' || c == '\t' || c == '\n' || c == '\r'
    || c == '\U{0B}' || c == '\U{0C}'
    || ('\U{1C}' <= c <= '\U{1F}')
    || c == '\U{85}' || c == '\U{A0}' || c == '\U{1680}'
    || ('\U{2000}' <= c <= '\U{200A}')
    || c == '\U{2028}' || c == '\U{2029}' || c == '\U{202F}'
    || c == '\U{205F}' || c == '\U{3000}'
  }

  /** `s` with its leading whitespace removed. */
  function StripStart(s: string): (r: string)
    ensures |r| <= |s| && r == s[|s| - |r|..]
    ensures r == [] || !IsSpace(r[0])
    ensures forall i :: 0 <= i < |s| - |r| ==> IsSpace(s[i])
  {
    if s != [] && IsSpace(s[0]) then StripStart(s[1..]) else s
  }

  /** `s` with its trailing whitespace removed. */
  function StripEnd(s: string): (r: string)
    ensures |r| <= |s| && r == s[..|r|]
    ensures r == [] || !IsSpace(r[|r| - 1])
    ensures forall i :: |r| <= i < |s| ==> IsSpace(s[i])
  {
    if s != [] && IsSpace(s[|s| - 1]) then StripEnd(s[..|s| - 1]) else s
  }

  /** Python's `s.strip()`. */
  function Strip(s: string): (r: string)
    ensures r == [] || (!IsSpace(r[0]) && !IsSpace(r[|r| - 1]))
  {
    var t := StripStart(s);
    var r := StripEnd(t);
    assert r != [] ==> r[0] == t[0];
    r
  }

  /** The number of leading whitespace characters Strip removes. */
  function Leading(s: string): (n: nat)
    ensures n <= |s|
  {
    |s| - |StripStart(s)|
  }

  /** Strip keeps a contiguous slice of its input. */
  lemma StripSlice(s: string)
    ensures Leading(s) + |Strip(s)| <= |s|
    ensures Strip(s) == s[Leading(s)..Leading(s) + |Strip(s)|]
  {
    var t := StripStart(s);
    var r := StripEnd(t);
    var i := |s| - |t|;
    assert Strip(s) == r;
    assert r == s[i..][..|r|];
    assert s[i..][..|r|] == s[i..i + |r|];
  }

  /** Everything Strip cuts off at either end is whitespace. */
  lemma StripCutsSpace(s: string)
    ensures forall j :: 0 <= j < Leading(s) ==> IsSpace(s[j])
    ensures forall j :: Leading(s) + |Strip(s)| <= j < |s| ==> IsSpace(s[j])
  {
    var t := StripStart(s);
    var r := StripEnd(t);
    var i := Leading(s);
    assert t == s[i..];
    forall j | i + |r| <= j < |s| ensures IsSpace(s[j]) {
      assert s[j] == t[j - i];
    }
  }

  /** A string that already has no surrounding whitespace is left alone. */
  lemma StripTrimmed(s: string)
    requires s == [] || (!IsSpace(s[0]) && !IsSpace(s[|s| - 1]))
    ensures Strip(s) == s
  {
  }

  /** Trimming twice is trimming once. */
  lemma StripIdempotent(s: string)
    ensures Strip(Strip(s)) == Strip(s)
  {
    StripTrimmed(Strip(s));
  }

  /** Python's `str.upper()` on one character, for the ASCII letters. */
  function UpperChar(c: char): (u: char)
    ensures !('a' <= u <= 'z')
    ensures ('a' <= c <= 'z') || u == c
    ensures 'a' <= c <= 'z' ==> 'A' <= u <= 'Z'
  {
    if 'a' <= c <= 'z' then (c as int - 32) as char else c
  }

  /** Python's `str.lower()` on one character, for the ASCII letters. */
  function LowerChar(c: char): (l: char)
    ensures !('A' <= l <= 'Z')
    ensures ('A' <= c <= 'Z') || l == c
    ensures 'A' <= c <= 'Z' ==> 'a' <= l <= 'z'
  {
    if 'A' <= c <= 'Z' then (c as int + 32) as char else c
  }

  /** The ASCII case mappings are inverse to each other on the letters they change. */
  lemma CaseRoundTrip(c: char)
    ensures 'a' <= c <= 'z' ==> LowerChar(UpperChar(c)) == c
    ensures 'A' <= c <= 'Z' ==> UpperChar(LowerChar(c)) == c
  {
  }

  function Upper(s: string): (r: string)
    ensures |r| == |s|
    ensures forall i :: 0 <= i < |s| ==> r[i] == UpperChar(s[i])
  {
    seq(|s|, i requires 0 <= i < |s| => UpperChar(s[i]))
  }

  function Lower(s: string): (r: string)
    ensures |r| == |s|
    ensures forall i :: 0 <= i < |s| ==> r[i] == LowerChar(s[i])
  {
    seq(|s|, i requires 0 <= i < |s| => LowerChar(s[i]))
  }

  /** An upper-cased string holds no lower-case ASCII letter, so upper-casing again changes nothing. */
  lemma UpperIdempotent(s: string)
    ensures forall i :: 0 <= i < |Upper(s)| ==> !('a' <= Upper(s)[i] <= 'z')
    ensures Upper(Upper(s)) == Upper(s)
  {
  }

  lemma LowerIdempotent(s: string)
    ensures forall i :: 0 <= i < |Lower(s)| ==> !('A' <= Lower(s)[i] <= 'Z')
    ensures Lower(Lower(s)) == Lower(s)
  {
  }

  /** Case folding maps whitespace to whitespace and everything else to non-whitespace. */
  lemma FoldKeepsSpace(c: char)
    ensures IsSpace(UpperChar(c)) == IsSpace(c)
    ensures IsSpace(LowerChar(c)) == IsSpace(c)
  {
  }

  /** The number of occurrences of `c` in `s`. */
  function Count(s: string, c: char): nat
  {
    if s == [] then 0 else (if s[0] == c then 1 else 0) + Count(s[1..], c)
  }

  /** Python's `s.split(sep)`: the pieces between the occurrences of `sep`, empty ones included. */
  function Split(s: string, sep: char): (r: seq<string>)
    ensures |r| == 1 + Count(s, sep)
    ensures forall k :: 0 <= k < |r| ==> sep !in r[k]
  {
    if s == [] then [""]
    else
      var rest := Split(s[1..], sep);
      if s[0] == sep then [""] + rest else [[s[0]] + rest[0]] + rest[1..]
  }

  /** The inverse of Split: the pieces glued back together with `sep` between them. */
  function Join(parts: seq<string>, sep: char): (r: string)
    requires |parts| >= 1
  {
    if |parts| == 1 then parts[0] else parts[0] + [sep] + Join(parts[1..], sep)
  }

  /** Joining the pieces of a split gives back the original text. */
  lemma {:induction false} JoinSplit(s: string, sep: char)
    ensures Join(Split(s, sep), sep) == s
  {
    if s != [] {
      JoinSplit(s[1..], sep);
      var rest := Split(s[1..], sep);
      if s[0] != sep {
        if |rest| == 1 {
          assert Split(s, sep) == [[s[0]] + rest[0]];
        } else {
          assert Split(s, sep) == [[s[0]] + rest[0]] + rest[1..];
          assert ([[s[0]] + rest[0]] + rest[1..])[1..] == rest[1..];
        }
      }
    }
  }

  /** Splitting a join of separator-free pieces gives back the pieces. */
  lemma {:induction false} SplitJoin(parts: seq<string>, sep: char)
    requires |parts| >= 1
    requires forall k :: 0 <= k < |parts| ==> sep !in parts[k]
    ensures Split(Join(parts, sep), sep) == parts
    decreases |parts|, |parts[0]|
  {
    var head := parts[0];
    if head == [] {
      if |parts| > 1 {
        SplitJoin(parts[1..], sep);
        assert Join(parts, sep) == [sep] + Join(parts[1..], sep);
        assert ([sep] + Join(parts[1..], sep))[1..] == Join(parts[1..], sep);
      }
    } else {
      var shorter := [head[1..]] + parts[1..];
      assert forall k :: 0 <= k < |shorter| ==> sep !in shorter[k] by {
        forall k | 0 <= k < |shorter| ensures sep !in shorter[k] {
          if k == 0 {
            assert forall c :: c in head[1..] ==> c in head;
          } else {
            assert shorter[k] == parts[k];
          }
        }
      }
      SplitJoin(shorter, sep);
      assert shorter[1..] == parts[1..];
      assert Join(parts, sep) == [head[0]] + Join(shorter, sep);
      assert head[0] != sep && head == [head[0]] + head[1..];
      assert (([head[0]] + Join(shorter, sep)))[1..] == Join(shorter, sep);
    }
  }
}
