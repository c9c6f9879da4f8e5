/** Quote verification: _verify_proofs of app/llm/extraction.py.

`space` says which characters separate words and `fold` is the case folding of one character;
both are left open, so everything holds for Unicode's tables. */
module Proofs {
  import opened Records
  import opened Text

  type Fold = char -> string

  // ---- the string operations the source uses ----

  /** Length of the run of non-space characters a string starts with. */
  function Lead(s: string, space: Space): (n: nat)
    ensures n <= |s|
    ensures n < |s| ==> space(s[n])
    ensures forall k :: 0 <= k < n ==> !space(s[k])
  {
    if s == "" || space(s[0]) then 0 else 1 + Lead(s[1..], space)
  }

  /** `split()`: the maximal runs of non-space characters. */
  function Split(s: string, space: Space): seq<string>
    decreases |s|
  {
    if s == "" then []
    else if space(s[0]) then Split(s[1..], space)
    else
      var n := Lead(s, space);
      [s[..n]] + Split(s[n..], space)
  }

  /** `" ".join`. */
  function Join(words: seq<string>): string {
    if words == [] then ""
    else if |words| == 1 then words[0]
    else words[0] + " " + Join(words[1..])
  }

  function Casefold(s: string, fold: Fold): string {
    if s == "" then "" else fold(s[0]) + Casefold(s[1..], fold)
  }

  /** `needle in hay`. */
  predicate Occurs(needle: string, hay: string) {
    needle <= hay || (hay != "" && Occurs(needle, hay[1..]))
  }

  function Normalized(s: string, space: Space, fold: Fold): string {
    Casefold(Join(Split(s, space)), fold)
  }

  /** The quotes kept, in order: stripped, not empty, and found in the article after normalisation. */
  function Kept(quotes: seq<Option<string>>, article: string, space: Space, fold: Fold): seq<string> {
    if quotes == [] then []
    else
      var last := quotes[|quotes| - 1];
      var before := Kept(quotes[..|quotes| - 1], article, space, fold);
      var quote := Strip(if last.Some? then last.value else "", space);
      if quote != "" && Occurs(Normalized(quote, space, fold), Normalized(article, space, fold))
      then before + [quote] else before
  }

  method VerifyProofs(quotes: seq<Option<string>>, article: string, space: Space, fold: Fold)
    returns (verified: seq<string>)
    ensures verified == Kept(quotes, article, space, fold)
  {
    var normalizedArticle := Casefold(Join(Split(article, space)), fold);
    verified := [];
    for n := 0 to |quotes|
      invariant verified == Kept(quotes[..n], article, space, fold)
    {
      assert quotes[..n + 1][..n] == quotes[..n];
      var quote := Strip(if quotes[n].Some? then quotes[n].value else "", space);
      if quote != "" {
        var needle := Casefold(Join(Split(quote, space)), fold);
        if Occurs(needle, normalizedArticle) {
          verified := verified + [quote];
        }
      }
    }
    assert quotes[..|quotes|] == quotes;
  }

  // ---- normalisation, character by character ----

  /** Normalising with nothing emitted yet: leading spaces vanish. */
  function Fresh(s: string, space: Space): string {
    if s == "" then "" else if space(s[0]) then Fresh(s[1..], space) else [s[0]] + Rest(s[1..], space)
  }

  /** Normalising after a character: a run of spaces becomes one, unless nothing follows it. */
  function Rest(s: string, space: Space): string {
    if s == "" then ""
    else if !space(s[0]) then [s[0]] + Rest(s[1..], space)
    else if Fresh(s[1..], space) == "" then "" else " " + Fresh(s[1..], space)
  }

  lemma {:induction false} RestOfRun(s: string, n: nat, space: Space)
    requires n <= |s| && forall k :: 0 <= k < n ==> !space(s[k])
    ensures Rest(s, space) == s[..n] + Rest(s[n..], space)
  {
    if n > 0 {
      RestOfRun(s[1..], n - 1, space);
      assert s[1..][..n - 1] == s[1..n] && s[1..][n - 1..] == s[n..];
      assert s[..n] == [s[0]] + s[1..n];
    }
  }

  lemma JoinCons(word: string, words: seq<string>)
    ensures Join([word] + words) == if words == [] then word else word + " " + Join(words)
  {
    assert ([word] + words)[1..] == words;
  }

  lemma RestAtSpace(tail: string, space: Space)
    requires tail != "" ==> space(tail[0])
    ensures Rest(tail, space) == if Fresh(tail, space) == "" then "" else " " + Fresh(tail, space)
  {
  }

  lemma FreshWord(s: string, space: Space)
    requires s != "" && !space(s[0])
    ensures var n := Lead(s, space); n > 0 && Fresh(s, space) == s[..n] + Rest(s[n..], space)
  {
    assert Fresh(s, space) == Rest(s, space);
    RestOfRun(s, Lead(s, space), space);
  }

  /** Splitting and joining is that character-by-character normalisation. */
  lemma {:induction false} JoinSplit(s: string, space: Space)
    ensures Join(Split(s, space)) == Fresh(s, space)
    ensures Split(s, space) == [] <==> Fresh(s, space) == ""
    decreases |s|
  {
    if s != "" {
      if space(s[0]) {
        JoinSplit(s[1..], space);
      } else {
        var n := Lead(s, space);
        FreshWord(s, space);
        JoinSplit(s[n..], space);
        RestAtSpace(s[n..], space);
        JoinCons(s[..n], Split(s[n..], space));
        assert Split(s, space) == [s[..n]] + Split(s[n..], space);
        hide Lead, Fresh, Rest, Join, Split;
      }
    }
  }

  // ---- a slice normalises to a slice ----

  lemma {:induction false} FreshPrefix(y: string, z: string, space: Space)
    ensures Fresh(y, space) <= Fresh(y + z, space)
    ensures Rest(y, space) <= Rest(y + z, space)
    decreases |y|
  {
    if y != "" {
      assert (y + z)[1..] == y[1..] + z;
      FreshPrefix(y[1..], z, space);
    }
  }

  lemma Longer(head: string, s: string, t: string)
    requires EndsWith(s, t)
    ensures EndsWith(head + s, t)
  {
  }

  lemma {:induction false} FreshSuffix(x: string, y: string, space: Space)
    ensures EndsWith(Fresh(x + y, space), Fresh(y, space))
    ensures EndsWith(Rest(x + y, space), Fresh(y, space))
    decreases |x|
  {
    if x == "" {
      assert x + y == y;
      if y != "" && space(y[0]) {
        Longer(" ", Fresh(y, space), Fresh(y, space));
      }
    } else {
      assert (x + y)[1..] == x[1..] + y;
      FreshSuffix(x[1..], y, space);
      Longer([x[0]], Rest(x[1..] + y, space), Fresh(y, space));
      Longer(" ", Fresh(x[1..] + y, space), Fresh(y, space));
    }
  }

  lemma {:induction false} CasefoldAppend(s: string, t: string, fold: Fold)
    ensures Casefold(s + t, fold) == Casefold(s, fold) + Casefold(t, fold)
  {
    if s == "" {
      assert s + t == t;
    } else {
      assert (s + t)[1..] == s[1..] + t;
      CasefoldAppend(s[1..], t, fold);
    }
  }

  /** Case folding goes character by character: one is replaced by its folding, and what stands around it
  does not matter. */
  lemma CasefoldMeans(s: string, c: char, t: string, fold: Fold)
    ensures Casefold(s + [c] + t, fold) == Casefold(s, fold) + fold(c) + Casefold(t, fold)
  {
    CasefoldAppend(s + [c], t, fold);
    CasefoldAppend(s, [c], fold);
    assert Casefold([c], fold) == fold(c) + "";
  }

  lemma {:induction false} OccursAt(pre: string, needle: string, post: string)
    ensures Occurs(needle, pre + needle + post)
  {
    var hay := pre + needle + post;
    if pre == "" {
      assert hay == needle + post;
    } else {
      assert hay[1..] == pre[1..] + needle + post;
      OccursAt(pre[1..], needle, post);
    }
  }

  lemma {:induction false} OccursMeans(needle: string, hay: string) returns (pre: string, post: string)
    requires Occurs(needle, hay)
    ensures hay == pre + needle + post
  {
    if needle <= hay {
      pre, post := "", hay[|needle|..];
    } else {
      pre, post := OccursMeans(needle, hay[1..]);
      assert hay == [hay[0]] + hay[1..];
      pre := [hay[0]] + pre;
    }
  }

  lemma FreshSlice(x: string, y: string, z: string, space: Space) returns (pre: string, post: string)
    ensures Fresh(x + y + z, space) == pre + Fresh(y, space) + post
  {
    FreshSuffix(x, y, space);
    FreshPrefix(x + y, z, space);
    var all, upTo, slice := Fresh(x + y + z, space), Fresh(x + y, space), Fresh(y, space);
    pre, post := upTo[..|upTo| - |slice|], all[|upTo|..];
  }

  /** Any slice of a text occurs in it after normalisation, even when it cuts words in two. */
  lemma SliceOccurs(x: string, y: string, z: string, space: Space, fold: Fold)
    ensures Occurs(Normalized(y, space, fold), Normalized(x + y + z, space, fold))
  {
    JoinSplit(y, space);
    JoinSplit(x + y + z, space);
    var pre, post := FreshSlice(x, y, z, space);
    CasefoldAppend(pre + Fresh(y, space), post, fold);
    CasefoldAppend(pre, Fresh(y, space), fold);
    OccursAt(Casefold(pre, fold), Casefold(Fresh(y, space), fold), Casefold(post, fold));
  }

  // ---- quotes that differ in spacing and case ----

  /** The same words up to case, however they are spaced. */
  ghost predicate SameWords(s: string, t: string, space: Space, fold: Fold) {
    |Split(s, space)| == |Split(t, space)|
    && forall k :: 0 <= k < |Split(s, space)| ==>
         Casefold(Split(s, space)[k], fold) == Casefold(Split(t, space)[k], fold)
  }

  lemma {:induction false} SameJoin(v: seq<string>, w: seq<string>, fold: Fold)
    requires |v| == |w| && forall k :: 0 <= k < |v| ==> Casefold(v[k], fold) == Casefold(w[k], fold)
    ensures Casefold(Join(v), fold) == Casefold(Join(w), fold)
  {
    if |v| > 1 {
      SameJoin(v[1..], w[1..], fold);
      CasefoldAppend(v[0] + " ", Join(v[1..]), fold);
      CasefoldAppend(w[0] + " ", Join(w[1..]), fold);
      CasefoldAppend(v[0], " ", fold);
      CasefoldAppend(w[0], " ", fold);
    }
  }

  lemma {:induction false} StripKeepsWords(s: string, space: Space)
    ensures Split(StripLeft(s, space), space) == Split(s, space)
  {
    if s != "" && space(s[0]) {
      StripKeepsWords(s[1..], space);
    }
  }

  lemma {:induction false} TrailingSpace(s: string, c: char, space: Space)
    requires space(c)
    ensures Split(s + [c], space) == Split(s, space)
    decreases |s|
  {
    var t := s + [c];
    if s == "" {
      assert t[1..] == "";
    } else if space(s[0]) {
      assert t[1..] == s[1..] + [c];
      TrailingSpace(s[1..], c, space);
    } else {
      LeadAppend(s, c, space);
      var n := Lead(s, space);
      assert t[..n] == s[..n] && t[n..] == s[n..] + [c];
      TrailingSpace(s[n..], c, space);
    }
  }

  lemma {:induction false} LeadAppend(s: string, c: char, space: Space)
    requires space(c)
    ensures Lead(s + [c], space) == Lead(s, space)
  {
    if s != "" && !space(s[0]) {
      assert (s + [c])[1..] == s[1..] + [c];
      LeadAppend(s[1..], c, space);
    }
  }

  lemma {:induction false} StripRightKeepsWords(s: string, space: Space)
    ensures Split(StripRight(s, space), space) == Split(s, space)
  {
    if s != "" && space(s[|s| - 1]) {
      var t := s[..|s| - 1];
      assert s == t + [s[|s| - 1]];
      TrailingSpace(t, s[|s| - 1], space);
      StripRightKeepsWords(t, space);
    }
  }

  lemma StrippedQuote(s: string, space: Space)
    ensures Split(Strip(s, space), space) == Split(s, space)
    ensures Strip(s, space) == "" <==> Split(s, space) == []
  {
    StripKeepsWords(s, space);
    StripRightKeepsWords(StripLeft(s, space), space);
    var t := Strip(s, space);
    if t != "" {
      StripEnds(s, space);
      JoinSplit(t, space);
    }
  }

  lemma {:induction false} StripEnds(s: string, space: Space)
    ensures StripLeft(s, space) != "" ==> !space(StripLeft(s, space)[0])
    ensures Strip(s, space) != "" ==> !space(Strip(s, space)[0])
  {
    if s != "" && space(s[0]) {
      StripEnds(s[1..], space);
    } else {
      StripRightKeepsHead(s, space);
    }
  }

  lemma {:induction false} StripRightKeepsHead(s: string, space: Space)
    ensures StripRight(s, space) != "" ==> s != "" && StripRight(s, space)[0] == s[0]
  {
    if s != "" && space(s[|s| - 1]) {
      StripRightKeepsHead(s[..|s| - 1], space);
    }
  }

  lemma {:induction false} SomeWord(s: string, k: nat, space: Space)
    requires k < |s| && !space(s[k])
    ensures Split(s, space) != []
    decreases |s|
  {
    if space(s[0]) {
      SomeWord(s[1..], k - 1, space);
    }
  }

  // ---- the two promises ----

  lemma {:induction false} KeptMember(quotes: seq<Option<string>>, article: string, space: Space, fold: Fold, n: nat)
    requires n < |quotes| && quotes[n].Some?
    requires var quote := Strip(quotes[n].value, space);
             quote != "" && Occurs(Normalized(quote, space, fold), Normalized(article, space, fold))
    ensures Strip(quotes[n].value, space) in Kept(quotes, article, space, fold)
  {
    if n < |quotes| - 1 {
      KeptMember(quotes[..|quotes| - 1], article, space, fold, n);
    }
  }

  /** The quotes are checked one by one and kept in the order they came: nothing depends on the others. */
  lemma {:induction false} KeptInOrder(some: seq<Option<string>>, more: seq<Option<string>>, article: string,
                                       space: Space, fold: Fold)
    ensures Kept(some + more, article, space, fold) ==
            Kept(some, article, space, fold) + Kept(more, article, space, fold)
  {
    if more == [] {
      assert some + more == some;
    } else {
      var before := more[..|more| - 1];
      assert (some + more)[..|some + more| - 1] == some + before;
      KeptInOrder(some, before, article, space, fold);
    }
  }

  /** Completeness: a quote with the same words, up to spacing and case, as any non-blank slice of the
  article is never dropped. */
  lemma GenuineQuoteSurvives(quotes: seq<Option<string>>, x: string, y: string, z: string,
                             space: Space, fold: Fold, n: nat)
    requires n < |quotes| && quotes[n].Some? && SameWords(quotes[n].value, y, space, fold)
    requires exists k :: 0 <= k < |y| && !space(y[k])
    ensures Strip(quotes[n].value, space) in Kept(quotes, x + y + z, space, fold)
  {
    var k :| 0 <= k < |y| && !space(y[k]);
    SomeWord(y, k, space);
    var quote := quotes[n].value;
    StrippedQuote(quote, space);
    SameJoin(Split(quote, space), Split(y, space), fold);
    SliceOccurs(x, y, z, space, fold);
    KeptMember(quotes, x + y + z, space, fold, n);
  }

  /** Soundness: whatever is returned is the stripped form of a submitted quote, is not blank, and its
  normalised form stands in the normalised article as one contiguous piece. */
  lemma {:induction false} NothingHallucinated(quotes: seq<Option<string>>, article: string, space: Space,
                                           fold: Fold, v: string)
    returns (n: nat, pre: string, post: string)
    requires v in Kept(quotes, article, space, fold)
    ensures n < |quotes| && quotes[n].Some? && v == Strip(quotes[n].value, space) && Split(v, space) != []
    ensures Normalized(article, space, fold) == pre + Normalized(v, space, fold) + post
  {
    var last := quotes[|quotes| - 1];
    var before := quotes[..|quotes| - 1];
    if v in Kept(before, article, space, fold) {
      n, pre, post := NothingHallucinated(before, article, space, fold, v);
    } else {
      n := |quotes| - 1;
      var text := if last.Some? then last.value else "";
      StrippedQuote(text, space);
      pre, post := OccursMeans(Normalized(v, space, fold), Normalized(article, space, fold));
    }
  }
}
