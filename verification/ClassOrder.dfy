/**
 Class lists: the classes a merge kept are put back into the order they had in the
 input, and the important marker moves between its two notations.
 */
module ClassOrder {

  // ----- words -----

  predicate IsSpace(c: char) {
    || c in {'\t', '\n', '\U{0B}', '\U{0C}', '\r', ' ', '\U{85}', '\U{A0}'}
    || c in {'\U{1680}', '\U{2028}', '\U{2029}', '\U{202F}', '\U{205F}', '\U{3000}'}
    || '\U{2000}' <= c <= '\U{200A}'
  }

  /** strings.Fields: the maximal runs of characters that are not spaces. */
  function Fields(s: string): seq<string>
    decreases |s|
  {
    if s == [] then []
    else if IsSpace(s[0]) then Fields(s[1..])
    else
      var n := WordEnd(s);
      [s[..n]] + Fields(s[n..])
  }

  function WordEnd(s: string): (n: nat)
    ensures n <= |s| && (s != [] && !IsSpace(s[0]) ==> n > 0)
    ensures forall i :: 0 <= i < n ==> !IsSpace(s[i])
    ensures n < |s| ==> IsSpace(s[n])
  {
    if s == [] || IsSpace(s[0]) then 0 else 1 + WordEnd(s[1..])
  }

  function Join(words: seq<string>): string {
    if words == [] then ""
    else if |words| == 1 then words[0]
    else words[0] + " " + Join(words[1..])
  }

  predicate Word(w: string) {
    w != [] && forall i :: 0 <= i < |w| ==> !IsSpace(w[i])
  }

  predicate Words(ws: seq<string>) {
    forall i :: 0 <= i < |ws| ==> Word(ws[i])
  }

  lemma {:induction false} FieldsAreWords(s: string)
    ensures Words(Fields(s))
    decreases |s|
  {
    if s != [] {
      if IsSpace(s[0]) {
        FieldsAreWords(s[1..]);
      } else {
        FieldsAreWords(s[WordEnd(s)..]);
      }
    }
  }

  lemma {:induction false} WordEndIs(w: string, rest: string)
    requires Word(w) && (rest != [] ==> IsSpace(rest[0]))
    ensures WordEnd(w + rest) == |w|
  {
    assert (w + rest)[1..] == w[1..] + rest;
    if |w| > 1 {
      WordEndIs(w[1..], rest);
    } else {
      assert w[1..] + rest == rest;
    }
  }

  lemma {:induction false} FieldsOfJoin(words: seq<string>)
    requires Words(words)
    ensures Fields(Join(words)) == words
  {
    if words != [] {
      var w, rest := words[0], if |words| == 1 then "" else " " + Join(words[1..]);
      assert Join(words) == w + rest;
      WordEndIs(w, rest);
      assert (w + rest)[..|w|] == w && (w + rest)[|w|..] == rest;
      FieldsOfJoin(words[1..]);
      if |words| > 1 {
        assert rest[1..] == Join(words[1..]);
      }
    }
  }

  // ----- putting the survivors back in order -----

  /** Which tokens to keep, walking from the right while some of their kind remain. */
  function Chosen(tokens: seq<string>, m: multiset<string>): (keep: seq<bool>)
    ensures |keep| == |tokens|
  {
    if tokens == [] then []
    else
      var n := |tokens| - 1;
      if tokens[n] in m then Chosen(tokens[..n], m - multiset{tokens[n]}) + [true]
      else Chosen(tokens[..n], m) + [false]
  }

  /** The chosen tokens in input order. */
  function Select(tokens: seq<string>, keep: seq<bool>): seq<string>
    requires |keep| == |tokens|
  {
    if tokens == [] then []
    else
      var n := |tokens| - 1;
      Select(tokens[..n], keep[..n]) + if keep[n] then [tokens[n]] else []
  }

  /** What the walk from the right takes, in input order. */
  function Ordered(tokens: seq<string>, m: multiset<string>): seq<string> {
    if tokens == [] then []
    else
      var n := |tokens| - 1;
      if tokens[n] in m then Ordered(tokens[..n], m - multiset{tokens[n]}) + [tokens[n]]
      else Ordered(tokens[..n], m)
  }

  /** It is a subsequence of the input: the chosen tokens in their places. */
  lemma {:induction false} OrderedIsSelect(tokens: seq<string>, m: multiset<string>)
    ensures Ordered(tokens, m) == Select(tokens, Chosen(tokens, m))
  {
    if tokens != [] {
      var n := |tokens| - 1;
      var rest := if tokens[n] in m then m - multiset{tokens[n]} else m;
      OrderedIsSelect(tokens[..n], rest);
      assert Chosen(tokens, m)[..n] == Chosen(tokens[..n], rest);
    }
  }

  /** Of repeated tokens the last ones are chosen. */
  lemma {:induction false} ChosenAreRightmost(tokens: seq<string>, m: multiset<string>, i: nat, j: nat)
    requires i < j < |tokens| && tokens[i] == tokens[j] && Chosen(tokens, m)[i]
    ensures Chosen(tokens, m)[j]
  {
    var n := |tokens| - 1;
    var rest := if tokens[n] in m then m - multiset{tokens[n]} else m;
    if j < n {
      ChosenAreRightmost(tokens[..n], rest, i, j);
    } else if tokens[j] !in m {
      ChosenRemain(tokens[..n], rest, i);
    }
  }

  /** Only tokens that remain to be placed are chosen. */
  lemma {:induction false} ChosenRemain(tokens: seq<string>, m: multiset<string>, i: nat)
    requires i < |tokens| && Chosen(tokens, m)[i]
    ensures tokens[i] in m
  {
    var n := |tokens| - 1;
    if i < n {
      ChosenRemain(tokens[..n], if tokens[n] in m then m - multiset{tokens[n]} else m, i);
    }
  }

  /** The chosen tokens are as many of each kind as both the input and the survivors have. */
  lemma {:induction false} OrderedIsCommon(tokens: seq<string>, m: multiset<string>)
    ensures multiset(Ordered(tokens, m)) == multiset(tokens) * m
  {
    if tokens != [] {
      var n := |tokens| - 1;
      var rest := if tokens[n] in m then m - multiset{tokens[n]} else m;
      OrderedIsCommon(tokens[..n], rest);
      CommonWithOne(tokens, tokens[..n], tokens[n], m, Ordered(tokens[..n], rest));
    }
  }

  lemma CommonWithOne(tokens: seq<string>, init: seq<string>, x: string, m: multiset<string>, o: seq<string>)
    requires tokens == init + [x]
    requires multiset(o) == multiset(init) * if x in m then m - multiset{x} else m
    ensures multiset(if x in m then o + [x] else o) == multiset(tokens) * m
  {
    var a := multiset(init);
    assert multiset(tokens) == a + multiset{x};
    if x in m {
      assert (a + multiset{x}) * m == a * (m - multiset{x}) + multiset{x};
      assert multiset(o + [x]) == multiset(o) + multiset{x};
    } else {
      assert (a + multiset{x}) * m == a * m;
    }
  }

  /** All survivors are placed exactly when the input has them all. */
  lemma OrderedIsPermutation(tokens: seq<string>, survivors: seq<string>)
    ensures var out := Ordered(tokens, multiset(survivors));
            && (|out| == |survivors| <==> multiset(survivors) <= multiset(tokens))
            && (|out| == |survivors| <==> multiset(out) == multiset(survivors))
  {
    var m := multiset(survivors);
    var out := Ordered(tokens, m);
    OrderedIsCommon(tokens, m);
    assert |multiset(out)| == |out| && |m| == |survivors|;
    SubMultisetSize(multiset(out), m);
    if m <= multiset(tokens) {
      assert multiset(tokens) * m == m;
    }
    if multiset(tokens) * m == m {
      forall x | x in m ensures m[x] <= multiset(tokens)[x] {
        assert (multiset(tokens) * m)[x] == m[x];
      }
    }
  }

  lemma {:induction false} SubMultisetSize(a: multiset<string>, b: multiset<string>)
    requires a <= b
    ensures |a| <= |b| && (|a| == |b| ==> a == b)
    decreases |b|
  {
    if x :| x in b {
      if x in a {
        SubMultisetSize(a - multiset{x}, b - multiset{x});
        assert a == a - multiset{x} + multiset{x} && b == b - multiset{x} + multiset{x};
      } else {
        SubMultisetSize(a, b - multiset{x});
      }
    }
  }

  function Reversed(s: seq<string>): (r: seq<string>)
    ensures |r| == |s| && forall i :: 0 <= i < |s| ==> r[i] == s[|s| - 1 - i]
  {
    seq(|s|, i requires 0 <= i < |s| => s[|s| - 1 - i])
  }

  method Count(words: seq<string>) returns (count: multiset<string>)
    ensures count == multiset(words)
  {
    count := multiset{};
    for i := 0 to |words|
      invariant count == multiset(words[..i])
    {
      assert words[..i + 1] == words[..i] + [words[i]];
      count := count + multiset{words[i]};
    }
    assert words[..|words|] == words;
  }

  /** Walk the input from the right, taking what remains of the survivors. */
  method WalkBack(tokens: seq<string>, survivors: seq<string>) returns (ordered: seq<string>)
    ensures Reversed(ordered) == Ordered(tokens, multiset(survivors))
  {
    var remaining := Count(survivors);
    ordered := [];
    var n := |tokens|;
    assert tokens[..n] == tokens;
    while n > 0
      invariant n <= |tokens|
      invariant Ordered(tokens[..n], remaining) + Reversed(ordered) == Ordered(tokens, multiset(survivors))
    {
      n := n - 1;
      assert tokens[..n + 1][..n] == tokens[..n];
      if remaining[tokens[n]] != 0 {
        remaining := remaining - multiset{tokens[n]};
        assert Reversed(ordered + [tokens[n]]) == [tokens[n]] + Reversed(ordered);
        ordered := ordered + [tokens[n]];
      }
    }
  }

  /** The survivors in input order, or the merge as it came if it is not a choice of
      input tokens. */
  method Reorder(input: string, merged: string) returns (r: string)
    ensures var tokens, survivors := Fields(input), Fields(merged);
            if |survivors| >= 2 && multiset(survivors) <= multiset(tokens) then
              Fields(r) == Ordered(tokens, multiset(survivors)) && multiset(Fields(r)) == multiset(survivors)
            else r == merged
  {
    var survivors := Fields(merged);
    if |survivors| < 2 {
      return merged;
    }
    var tokens := Fields(input);
    var ordered := WalkBack(tokens, survivors);
    OrderedIsPermutation(tokens, survivors);
    if |ordered| != |survivors| {
      return merged;
    }
    ordered := Reversed(ordered);
    FieldsAreWords(merged);
    assert Words(ordered) by {
      forall i | 0 <= i < |ordered| ensures Word(ordered[i]) {
        assert ordered[i] in multiset(ordered);
        assert ordered[i] in multiset(survivors);
      }
    }
    FieldsOfJoin(ordered);
    return Join(ordered);
  }

  // ----- the important marker -----

  function Bracket(c: char): int {
    if c == '[' then 1 else if c == ']' then -1 else 0
  }

  /** How many square brackets are open before position `i`. */
  function Depth(s: string, i: nat): int
    requires i <= |s|
  {
    if i == 0 then 0 else Depth(s, i - 1) + Bracket(s[i - 1])
  }

  /** A variant separator outside square brackets. */
  predicate TopColon(s: string, i: int) {
    0 <= i < |s| && s[i] == ':' && Depth(s, i) == 0
  }

  /** The last such separator among the first `n` characters, or -1. */
  function LastBelow(s: string, n: nat): (last: int)
    requires n <= |s|
    ensures -1 <= last < n
  {
    if n == 0 then -1 else if TopColon(s, n - 1) then n - 1 else LastBelow(s, n - 1)
  }

  lemma {:induction false} LastBelowIsLast(s: string, n: nat)
    requires n <= |s|
    ensures LastBelow(s, n) >= 0 ==> TopColon(s, LastBelow(s, n))
    ensures forall i :: LastBelow(s, n) < i < n ==> !TopColon(s, i)
  {
    if n > 0 {
      LastBelowIsLast(s, n - 1);
    }
  }

  function LastTopColon(s: string): (last: int)
    ensures -1 <= last < |s|
  {
    LastBelow(s, |s|)
  }

  method FindLastTopColon(s: string) returns (last: int)
    ensures last == LastTopColon(s)
  {
    var depth := 0;
    last := -1;
    for i := 0 to |s|
      invariant depth == Depth(s, i) && last == LastBelow(s, i)
    {
      match s[i] {
        case '[' => depth := depth + 1;
        case ']' => depth := depth - 1;
        case ':' =>
          if depth == 0 {
            last := i;
          }
        case _ =>
      }
    }
  }

  /** The trailing marker moves in front of the base utility. */
  function ToV3(token: string): string {
    if token == [] || token[|token| - 1] != '!' then token
    else
      var base := token[..|token| - 1];
      var i := LastTopColon(base);
      base[..i + 1] + "!" + base[i + 1..]
  }

  /** A token whose base utility starts with the marker. */
  predicate Prefixed(token: string) {
    var i := LastTopColon(token);
    i + 1 < |token| && token[i + 1] == '!'
  }

  function ToV4(token: string): string {
    if !Prefixed(token) then token
    else
      var i := LastTopColon(token);
      token[..i + 1] + token[i + 2..] + "!"
  }

  /** `t` is `s` with the marker put in at `p`. */
  predicate Inserted(s: string, t: string, p: nat) {
    p <= |s| && t == s[..p] + "!" + s[p..]
  }

  lemma InsertedAt(s: string, t: string, p: nat, k: nat)
    requires Inserted(s, t, p) && k < |s|
    ensures |t| == |s| + 1 && t[p] == '!' && t[if k < p then k else k + 1] == s[k]
  {
  }

  lemma {:induction false} InsertKeepsDepth(s: string, t: string, p: nat, k: nat)
    requires Inserted(s, t, p) && k <= |s|
    ensures |t| == |s| + 1 && Depth(t, if k < p then k else k + 1) == Depth(s, k)
    ensures k == p ==> Depth(t, k) == Depth(s, k)
  {
    if k > 0 {
      InsertKeepsDepth(s, t, p, k - 1);
      InsertedAt(s, t, p, k - 1);
    }
  }

  /** Putting the marker in moves the separators behind it by one and adds none. */
  lemma {:induction false} InsertShifts(s: string, t: string, p: nat, k: nat)
    requires Inserted(s, t, p) && k <= |s|
    ensures |t| == |s| + 1 && (k <= p ==> LastBelow(t, k) == LastBelow(s, k))
    ensures k >= p ==> LastBelow(t, k + 1) == LastBelow(s, k) + if LastBelow(s, k) < p then 0 else 1
  {
    if k > 0 {
      InsertShifts(s, t, p, k - 1);
      InsertKeepsDepth(s, t, p, k - 1);
      InsertedAt(s, t, p, k - 1);
    }
    if k == p {
      assert t[p] == '!';
    }
  }

  /** The marker put in behind the last separator moves no separator. */
  lemma InsertKeepsColon(s: string, t: string)
    requires Inserted(s, t, LastTopColon(s) + 1)
    ensures LastTopColon(t) == LastTopColon(s)
  {
    InsertShifts(s, t, LastTopColon(s) + 1, |s|);
  }

  lemma PutInTakeOut(s: string, t: string, p: nat)
    requires Inserted(s, t, p)
    ensures |t| == |s| + 1 && t[p] == '!' && t[..p] + t[p + 1..] == s
  {
    assert t[..p] == s[..p] && t[p + 1..] == s[p..];
  }

  lemma TrailingComesBack(token: string, base: string)
    requires token == base + "!"
    ensures ToV4(ToV3(token)) == token
  {
    assert token[..|token| - 1] == base;
    InsertKeepsColon(base, ToV3(token));
    PutInTakeOut(base, ToV3(token), LastTopColon(base) + 1);
  }

  lemma LeadingMoves(token: string)
    requires Prefixed(token) && token[|token| - 1] != '!'
    ensures ToV4(token) != token
  {
    assert ToV4(token)[|token| - 1] == '!';
  }

  /** There and back is the identity exactly on tokens with a trailing marker and on those
      that carry no leading one. */
  lemma MarkerRoundTripIff(token: string)
    ensures ToV4(ToV3(token)) == token <==> (token != [] && token[|token| - 1] == '!') || !Prefixed(token)
  {
    if token != [] && token[|token| - 1] == '!' {
      TrailingComesBack(token, token[..|token| - 1]);
    } else if Prefixed(token) {
      LeadingMoves(token);
    }
  }
}
