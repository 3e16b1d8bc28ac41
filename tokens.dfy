/** The tokenisation of the insert form's tag input: JavaScript's
    `String.prototype.split` with a one-character separator, and its
    inverse `Array.prototype.join`. */
module Tokens {

  /** `s.split(sep)`: the maximal pieces of `s` between separators, empty
      pieces included; an empty input gives one empty token. */
  function Split(s: string, sep: char): (r: seq<string>)
    ensures |r| == multiset(s)[sep] + 1
    ensures forall k :: 0 <= k < |r| ==> sep !in r[k]
  {
    if s == [] then [""]
    else
      var rest := Split(s[1..], sep);
      assert s == [s[0]] + s[1..];
      if s[0] == sep then [""] + rest
      else [[s[0]] + rest[0]] + rest[1..]
  }

  /** `tokens.join(sep)`. */
  function Join(tokens: seq<string>, sep: char): string {
    if tokens == [] then ""
    else if |tokens| == 1 then tokens[0]
    else tokens[0] + [sep] + Join(tokens[1..], sep)
  }

  /** Joining the tokens with the separator gives back the input. */
  lemma {:induction false} JoinSplit(s: string, sep: char)
    ensures Join(Split(s, sep), sep) == s
  {
    if s != [] {
      var rest := Split(s[1..], sep);
      JoinSplit(s[1..], sep);
      if s[0] == sep {
        JoinCons([""], rest, sep);
      } else {
        JoinExtendFirst(rest, s[0], sep);
      }
      assert s == [s[0]] + s[1..];
    }
  }

  /** Joining a single token before a non-empty list adds one separator. */
  lemma JoinCons(first: seq<string>, rest: seq<string>, sep: char)
    requires |first| == 1 && rest != []
    ensures Join(first + rest, sep) == first[0] + [sep] + Join(rest, sep)
  {
  }

  /** Prefixing a character to the first token prefixes it to the join. */
  lemma JoinExtendFirst(tokens: seq<string>, c: char, sep: char)
    requires tokens != []
    ensures Join([[c] + tokens[0]] + tokens[1..], sep) == [c] + Join(tokens, sep)
  {
    var t := [[c] + tokens[0]] + tokens[1..];
    if |tokens| > 1 {
      assert t[1..] == tokens[1..];
    }
  }

  /** Splitting a join of separator-free tokens gives the tokens back. */
  lemma {:induction false} SplitJoin(tokens: seq<string>, sep: char)
    requires tokens != []
    requires forall k :: 0 <= k < |tokens| ==> sep !in tokens[k]
    ensures Split(Join(tokens, sep), sep) == tokens
  {
    if |tokens| == 1 {
      SplitSeparatorFree(tokens[0], sep);
    } else {
      SplitJoin(tokens[1..], sep);
      SplitPrefix(tokens[0], Join(tokens[1..], sep), sep);
    }
  }

  lemma {:induction false} SplitSeparatorFree(s: string, sep: char)
    requires sep !in s
    ensures Split(s, sep) == [s]
  {
    if s != [] {
      SplitSeparatorFree(s[1..], sep);
      assert s[0] != sep;
      assert [s[0]] + s[1..] == s;
    }
  }

  /** Splitting `w + [sep] + t`, where `w` holds no separator, yields `w`
      followed by the tokens of `t`. */
  lemma {:induction false} SplitPrefix(w: string, t: string, sep: char)
    requires sep !in w
    ensures Split(w + [sep] + t, sep) == [w] + Split(t, sep)
  {
    var s := w + [sep] + t;
    if w == [] {
      assert s[1..] == t;
    } else {
      SplitPrefix(w[1..], t, sep);
      assert s[1..] == w[1..] + [sep] + t;
      assert [w[0]] + w[1..] == w;
    }
  }
}
