/** Python's whitespace splitting, `str.split()` with no separator argument. */
module Text {

  /** The characters Python's `str.isspace` accepts. */
  predicate IsSpace(c: char) {
    '\U{9}' <= c <= '\U{d}' || '\U{1c}' <= c <= '\U{20}'
    || c == '\U{85}' || c == '\U{a0}' || c == '\U{1680}'
    || '\U{2000}' <= c <= '\U{200a}' || c == '\U{2028}' || c == '\U{2029}'
    || c == '\U{202f}' || c == '\U{205f}' || c == '\U{3000}'
  }

  /** True when `w` holds no whitespace character. */
  predicate NoSpace(w: string) {
    forall i :: 0 <= i < |w| ==> !IsSpace(w[i])
  }

  /** The length of the run of non-whitespace characters that starts `s`. */
  function TokenLength(s: string): (n: nat)
    ensures n <= |s|
    ensures NoSpace(s[..n])
    ensures n < |s| ==> IsSpace(s[n])
    decreases |s|
  {
    if s == [] || IsSpace(s[0]) then 0
    else
      var n := 1 + TokenLength(s[1..]);
      assert s[..n] == [s[0]] + s[1..][..n - 1];
      n
  }

  /** The words of `s`: its maximal runs of non-whitespace characters, in order. */
  function Words(s: string): (ws: seq<string>)
    ensures forall i :: 0 <= i < |ws| ==> ws[i] != [] && NoSpace(ws[i])
    decreases |s|
  {
    if s == [] then []
    else if IsSpace(s[0]) then Words(s[1..])
    else
      var n := TokenLength(s);
      [s[..n]] + Words(s[n..])
  }

  /** `s` with every whitespace character deleted. */
  function StripSpace(s: string): (r: string)
    ensures NoSpace(r)
    decreases |s|
  {
    if s == [] then []
    else if IsSpace(s[0]) then StripSpace(s[1..])
    else [s[0]] + StripSpace(s[1..])
  }

  /** The concatenation of a list of strings. */
  function Concat(ws: seq<string>): string
    decreases |ws|
  {
    if ws == [] then [] else ws[0] + Concat(ws[1..])
  }

  lemma {:induction false} StripSpaceAppend(a: string, b: string)
    ensures StripSpace(a + b) == StripSpace(a) + StripSpace(b)
    decreases |a|
  {
    if a == [] {
      assert a + b == b;
    } else {
      assert (a + b)[1..] == a[1..] + b;
      StripSpaceAppend(a[1..], b);
    }
  }

  lemma {:induction false} StripSpaceOfWord(w: string)
    requires NoSpace(w)
    ensures StripSpace(w) == w
    decreases |w|
  {
    if w != [] {
      StripSpaceOfWord(w[1..]);
    }
  }

  /** Splitting loses nothing but whitespace: the words put back together are `s` without its spaces. */
  lemma {:induction false} WordsLoseOnlySpace(s: string)
    ensures Concat(Words(s)) == StripSpace(s)
    decreases |s|
  {
    if s != [] {
      if IsSpace(s[0]) {
        WordsLoseOnlySpace(s[1..]);
      } else {
        var n := TokenLength(s);
        WordsLoseOnlySpace(s[n..]);
        assert s == s[..n] + s[n..];
        StripSpaceAppend(s[..n], s[n..]);
        StripSpaceOfWord(s[..n]);
        assert ([s[..n]] + Words(s[n..]))[1..] == Words(s[n..]);
      }
    }
  }

  /** A whitespace character always separates words: none spans it. */
  lemma {:induction false} WordsSplitAtSpace(a: string, c: char, b: string)
    requires IsSpace(c)
    ensures Words(a + [c] + b) == Words(a) + Words(b)
    decreases |a|
  {
    var s := a + [c] + b;
    if a == [] {
      assert s[1..] == b;
    } else if IsSpace(a[0]) {
      assert s[1..] == a[1..] + [c] + b;
      WordsSplitAtSpace(a[1..], c, b);
    } else {
      var n := TokenLength(a);
      TokenLengthPrefix(a, [c] + b);
      assert s == a + ([c] + b);
      assert s[..n] == a[..n];
      assert s[n..] == a[n..] + [c] + b;
      WordsSplitAtSpace(a[n..], c, b);
    }
  }

  /** The first word of `a + rest` ends where the first word of `a` does, when `rest` starts with a space. */
  lemma {:induction false} TokenLengthPrefix(a: string, rest: string)
    requires rest != [] && IsSpace(rest[0])
    ensures TokenLength(a + rest) == TokenLength(a)
    decreases |a|
  {
    if a == [] {
      assert a + rest == rest;
    } else if !IsSpace(a[0]) {
      assert (a + rest)[1..] == a[1..] + rest;
      TokenLengthPrefix(a[1..], rest);
    }
  }

  /** A string with no whitespace is a single word; the empty string has none. */
  lemma {:induction false} WordsOfWord(w: string)
    requires w != [] && NoSpace(w)
    ensures Words(w) == [w]
  {
    TokenLengthOfWord(w);
    assert !IsSpace(w[0]);
    assert w[..|w|] == w && w[|w|..] == [];
    assert Words(w[|w|..]) == [];
  }

  lemma {:induction false} TokenLengthOfWord(w: string)
    requires NoSpace(w)
    ensures TokenLength(w) == |w|
    decreases |w|
  {
    if w != [] {
      TokenLengthOfWord(w[1..]);
    }
  }
}
