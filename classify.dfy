/** `naive_weight` and `vader` (src/classify.py): the term weighting of a
    text and the wrapper around the sentiment analyser. */
module Classify {
  import opened Wrappers
  import opened Text

  /** Dividing the sum by `len(term_counts)` when no term is tracked. */
  datatype WeightError = DivisionByZero

  // ---------------------------------------------------------------------
  // Specification

  predicate NoDuplicates(s: seq<string>)
  {
    forall a, b :: 0 <= a < b < |s| ==> s[a] != s[b]
  }

  /** The keys of a dictionary built by inserting `s` in order: each
      distinct element once, in the order of its first occurrence. */
  function Dedup(s: seq<string>): (r: seq<string>)
    ensures forall x :: x in r <==> x in s
    ensures |r| == 0 <==> |s| == 0
    decreases |s|
  {
    if s == [] then []
    else
      var d := Dedup(s[..|s| - 1]);
      var x := s[|s| - 1];
      assert forall y :: y in s <==> y in s[..|s| - 1] || y == x;
      if x in d then d else d + [x]
  }

  /** The index of the first occurrence of `x` in `s`. */
  function FirstIndex(s: seq<string>, x: string): (i: nat)
    requires x in s
    ensures i < |s| && s[i] == x && x !in s[..i]
  {
    if s[0] == x then 0
    else
      var j := FirstIndex(s[1..], x);
      assert s[..j + 1] == [s[0]] + s[1..][..j];
      j + 1
  }

  /** The terms `naive_weight` tracks: the distinct upper-cased terms, in
      the order in which they first occur. */
  function Tracked(terms: seq<string>): seq<string>
  {
    Dedup(UpperAll(terms))
  }

  /** The upper-cased whitespace-separated tokens of the text. */
  function Tokens(text: string): seq<string>
  {
    UpperAll(Split(text))
  }

  /** How many of the tokens `us` equal `k`. */
  function Count(us: seq<string>, k: string): nat
  {
    if us == [] then 0
    else Count(us[..|us| - 1], k) + (if us[|us| - 1] == k then 1 else 0)
  }

  /** The sum, over the first `n` tracked terms, of the term's count divided
      by its rank plus one. */
  function RankedSum(keys: seq<string>, us: seq<string>, n: nat): real
    requires n <= |keys|
  {
    if n == 0 then 0.0
    else RankedSum(keys, us, n - 1) + (Count(us, keys[n - 1]) as real) / (n as real)
  }

  /** The weight `naive_weight` computes: the rank-decayed sum of the
      counts, divided by the number of tracked terms; an empty term list
      divides by zero. */
  function Weight(text: string, terms: seq<string>): (r: Result<real, WeightError>)
    ensures r.Failure? <==> terms == []
  {
    var keys := Tracked(terms);
    if |keys| == 0 then Failure(DivisionByZero)
    else Success(RankedSum(keys, Tokens(text), |keys|) / (|keys| as real))
  }

  /** No token equals any term, both upper-cased. */
  predicate NoMatch(text: string, terms: seq<string>)
  {
    forall i, j :: 0 <= i < |Split(text)| && 0 <= j < |terms| ==>
      Upper(Split(text)[i]) != Upper(terms[j])
  }

  // ---------------------------------------------------------------------
  // The implementation

  /** `naive_weight(text, terms)`: builds the dictionary of tracked terms,
      counts the matching tokens into it, then reduces it. */
  method NaiveWeight(text: string, terms: seq<string>) returns (r: Result<real, WeightError>)
    ensures r == Weight(text, terms)
  {
    var keys, termCounts := TrackTerms(terms);
    var words := Split(text);
    termCounts := CountTokens(keys, termCounts, words);
    var total := SumDecayed(keys, termCounts, Tokens(text));
    if |keys| == 0 {
      r := Failure(DivisionByZero);
    } else {
      r := Success(total / (|keys| as real));
    }
  }

  /** `sum([term_counts[t] / (rank + 1) for rank, t in enumerate(term_counts)])`. */
  method SumDecayed(keys: seq<string>, termCounts: map<string, nat>, ghost us: seq<string>)
    returns (total: real)
    requires forall k :: k in keys ==> k in termCounts && termCounts[k] == Count(us, k)
    ensures total == RankedSum(keys, us, |keys|)
  {
    total := 0.0;
    for j := 0 to |keys|
      invariant total == RankedSum(keys, us, j)
    {
      total := total + (termCounts[keys[j]] as real) / ((j + 1) as real);
    }
  }

  /** `term_counts = {t.upper(): 0 for t in terms}`: the dictionary's keys
      in insertion order, and its values. */
  method TrackTerms(terms: seq<string>) returns (keys: seq<string>, termCounts: map<string, nat>)
    ensures keys == Tracked(terms)
    ensures forall k :: k in termCounts <==> k in keys
    ensures forall k :: k in termCounts ==> termCounts[k] == 0
  {
    ghost var ups := UpperAll(terms);
    keys, termCounts := [], map[];
    for i := 0 to |terms|
      invariant keys == Dedup(ups[..i])
      invariant forall k :: k in termCounts <==> k in keys
      invariant forall k :: k in termCounts ==> termCounts[k] == 0
    {
      var u := Upper(terms[i]);
      DedupSnoc(ups[..i + 1]);
      assert ups[..i + 1][..i] == ups[..i] && ups[..i + 1][i] == u;
      if u !in termCounts {
        keys := keys + [u];
      }
      termCounts := termCounts[u := 0];
    }
    assert ups[..|terms|] == ups;
  }

  /** The loop over `text.split()` that adds one to the count of every
      tracked term a token equals, once upper-cased; other tokens change
      nothing. */
  method CountTokens(keys: seq<string>, termCounts: map<string, nat>, words: seq<string>)
    returns (counts: map<string, nat>)
    requires forall k :: k in termCounts <==> k in keys
    requires forall k :: k in termCounts ==> termCounts[k] == 0
    ensures forall k :: k in counts <==> k in keys
    ensures forall k :: k in counts ==> counts[k] == Count(UpperAll(words), k)
  {
    ghost var us := UpperAll(words);
    counts := termCounts;
    for i := 0 to |words|
      invariant forall k :: k in counts <==> k in keys
      invariant forall k :: k in counts ==> counts[k] == Count(us[..i], k)
    {
      var w := Upper(words[i]);
      assert us[..i + 1][..i] == us[..i] && us[..i + 1][i] == w;
      if w in counts {
        counts := counts[w := counts[w] + 1];
      }
    }
    assert us[..|words|] == us;
  }

  lemma DedupSnoc(s: seq<string>)
    requires s != []
    ensures Dedup(s) == var d := Dedup(s[..|s| - 1]); if s[|s| - 1] in d then d else d + [s[|s| - 1]]
  {
  }

  // ---------------------------------------------------------------------
  // Properties

  lemma {:induction false} FirstIndexAppend(s: seq<string>, x: string, y: string)
    requires y in s
    ensures y in s + [x] && FirstIndex(s + [x], y) == FirstIndex(s, y)
  {
    if s[0] != y {
      assert (s + [x])[1..] == s[1..] + [x];
      FirstIndexAppend(s[1..], x, y);
    }
  }

  /** The tracked keys are distinct and appear in the order of the first
      occurrence of each in the input. */
  lemma {:induction false} DedupInFirstOccurrenceOrder(s: seq<string>)
    ensures NoDuplicates(Dedup(s))
    ensures forall a, b :: 0 <= a < b < |Dedup(s)| ==>
      FirstIndex(s, Dedup(s)[a]) < FirstIndex(s, Dedup(s)[b])
    decreases |s|
  {
    if s != [] {
      var s' := s[..|s| - 1];
      var x := s[|s| - 1];
      assert s == s' + [x];
      DedupInFirstOccurrenceOrder(s');
      var d := Dedup(s');
      forall y | y in d ensures FirstIndex(s, y) == FirstIndex(s', y) {
        FirstIndexAppend(s', x, y);
      }
      if x !in d {
        assert x !in s';
        assert FirstIndex(s, x) == |s'| by {
          assert s[..|s'|] == s';
        }
      }
    }
  }

  /** Terms that differ only in case collapse to one tracked entry: adding
      a case variant of a term already present leaves the weight alone. */
  lemma CaseVariantCollapses(text: string, terms: seq<string>, t: string)
    requires exists j :: 0 <= j < |terms| && Upper(terms[j]) == Upper(t)
    ensures Tracked(terms + [t]) == Tracked(terms)
    ensures Weight(text, terms + [t]) == Weight(text, terms)
  {
    var ups := UpperAll(terms + [t]);
    assert ups[..|ups| - 1] == UpperAll(terms);
    var j :| 0 <= j < |terms| && Upper(terms[j]) == Upper(t);
    assert UpperAll(terms)[j] == Upper(t);
  }

  /** Both sides are upper-cased before they are compared: the weight does
      not change when the text or the terms are upper-cased first. */
  lemma WeightIgnoresCase(text: string, terms: seq<string>)
    ensures Weight(Upper(text), terms) == Weight(text, terms)
    ensures Weight(text, UpperAll(terms)) == Weight(text, terms)
  {
    SplitUpper(text);
    UpperAllIdempotent(Split(text));
    UpperAllIdempotent(terms);
  }

  lemma {:induction false} CountZero(us: seq<string>, k: string)
    ensures Count(us, k) == 0 <==> k !in us
  {
    if us != [] {
      CountZero(us[..|us| - 1], k);
      assert us == us[..|us| - 1] + [us[|us| - 1]];
    }
  }

  lemma {:induction false} RankedSumZero(keys: seq<string>, us: seq<string>, n: nat)
    requires n <= |keys|
    ensures RankedSum(keys, us, n) >= 0.0
    ensures RankedSum(keys, us, n) == 0.0 <==> forall j :: 0 <= j < n ==> Count(us, keys[j]) == 0
  {
    if n > 0 {
      RankedSumZero(keys, us, n - 1);
    }
  }

  lemma QuotientSign(a: real, n: nat)
    requires n > 0
    ensures a >= 0.0 ==> a / (n as real) >= 0.0
    ensures a / (n as real) == 0.0 <==> a == 0.0
  {
  }

  /** No token matches a term exactly when no tracked term occurs among the
      upper-cased tokens. */
  lemma NoMatchIffNoTrackedToken(text: string, terms: seq<string>)
    ensures NoMatch(text, terms) <==>
      forall j :: 0 <= j < |Tracked(terms)| ==> Tracked(terms)[j] !in Tokens(text)
  {
    var keys := Tracked(terms);
    var us := Tokens(text);
    if NoMatch(text, terms) {
      forall j | 0 <= j < |keys| ensures keys[j] !in us {
        assert keys[j] in UpperAll(terms);
      }
    } else {
      var i, j :| 0 <= i < |Split(text)| && 0 <= j < |terms| && Upper(Split(text)[i]) == Upper(terms[j]);
      assert UpperAll(terms)[j] in keys;
      var m :| 0 <= m < |keys| && keys[m] == Upper(terms[j]);
      assert us[i] == keys[m];
    }
  }

  /** The weight of a non-empty term list is never negative, and it is zero
      exactly when no token matches any term. */
  lemma WeightZeroIffNoMatch(text: string, terms: seq<string>)
    requires terms != []
    ensures Weight(text, terms).Success?
    ensures Weight(text, terms).value >= 0.0
    ensures Weight(text, terms).value == 0.0 <==> NoMatch(text, terms)
  {
    var keys := Tracked(terms);
    var us := Tokens(text);
    RankedSumZero(keys, us, |keys|);
    QuotientSign(RankedSum(keys, us, |keys|), |keys|);
    forall j | 0 <= j < |keys| ensures Count(us, keys[j]) == 0 <==> keys[j] !in us {
      CountZero(us, keys[j]);
    }
    NoMatchIffNoTrackedToken(text, terms);
  }

  lemma {:induction false} SplitFromAcrossSpace(a: string, b: string, cur: string)
    ensures SplitFrom(a + " " + b, cur) == SplitFrom(a, cur) + Split(b)
    decreases |a|
  {
    if a == [] {
      assert a + " " + b == " " + b;
      assert (" " + b)[1..] == b;
    } else {
      assert (a + " " + b)[0] == a[0];
      assert (a + " " + b)[1..] == a[1..] + " " + b;
      if IsSpace(a[0]) {
        SplitFromAcrossSpace(a[1..], b, "");
      } else {
        SplitFromAcrossSpace(a[1..], b, cur + [a[0]]);
      }
    }
  }

  lemma {:induction false} RankedSumSameCounts(keys: seq<string>, us: seq<string>, vs: seq<string>, n: nat)
    requires n <= |keys|
    requires forall j :: 0 <= j < n ==> Count(us, keys[j]) == Count(vs, keys[j])
    ensures RankedSum(keys, us, n) == RankedSum(keys, vs, n)
  {
    if n > 0 {
      RankedSumSameCounts(keys, us, vs, n - 1);
    }
  }

  /** Appending a space and a word to the text appends that word's
      upper-cased form to the tokens. */
  lemma SplitAppendWord(text: string, w: string)
    requires IsWord(w)
    ensures Tokens(text + " " + w) == Tokens(text) + [Upper(w)]
  {
    SplitFromAcrossSpace(text, w, "");
    SplitFromWord(w, "", "");
    assert w + "" == w && "" + w == w;
    assert Split(text + " " + w) == Split(text) + [w];
  }

  /** A token different from `k` does not change the count of `k`. */
  lemma CountSnocOther(us: seq<string>, u: string, k: string)
    requires u != k
    ensures Count(us + [u], k) == Count(us, k)
  {
    assert (us + [u])[..|us|] == us;
  }

  /** A token that matches no term leaves every count, and so the weight,
      unchanged. */
  lemma UnmatchedTokenKeepsWeight(text: string, terms: seq<string>, w: string)
    requires IsWord(w)
    requires forall j :: 0 <= j < |terms| ==> Upper(w) != Upper(terms[j])
    ensures Weight(text + " " + w, terms) == Weight(text, terms)
  {
    SplitAppendWord(text, w);
    var us := Tokens(text);
    var keys := Tracked(terms);
    forall j | 0 <= j < |keys| ensures Count(us + [Upper(w)], keys[j]) == Count(us, keys[j]) {
      assert keys[j] in UpperAll(terms);
      CountSnocOther(us, Upper(w), keys[j]);
    }
    RankedSumSameCounts(keys, us + [Upper(w)], us, |keys|);
  }

  // ---------------------------------------------------------------------
  // Sentiment

  /** What `analyser.polarity_scores(text)` returns: the dictionary with
      the keys "neg", "neu", "pos" and "compound". */
  datatype PolarityScores = PolarityScores(neg: real, neu: real, pos: real, compound: real)

  /** `vader(text)`: the analyser's scores as the list [pos, neu, neg]. The
      analyser is the parameter `analyser`. */
  function Vader(analyser: string -> PolarityScores, text: string): (r: seq<real>)
    ensures |r| == 3
    ensures r[0] == analyser(text).pos && r[1] == analyser(text).neu && r[2] == analyser(text).neg
  {
    var scores := analyser(text);
    [scores.pos, scores.neu, scores.neg]
  }
}
