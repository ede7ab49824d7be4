/** The string operations `naive_weight` relies on: Python's `str.upper`
    (on ASCII letters), `str.split()` with no separator, and
    `" ".join(...)`. */
module Text {

  /** Python's `str.isspace` on one character: the characters
      `str.split()` splits on. */
  predicate IsSpace(c: char)
  {
    var n := c as int;
    (9 <= n <= 13) || (28 <= n <= 32) || n == 0x85 || n == 0xA0 || n == 0x1680
    || (0x2000 <= n <= 0x200A) || n == 0x2028 || n == 0x2029 || n == 0x202F
    || n == 0x205F || n == 0x3000
  }

  /** A non-empty piece of text without whitespace: what `split()` yields. */
  predicate IsWord(w: string)
  {
    w != [] && forall i :: 0 <= i < |w| ==> !IsSpace(w[i])
  }

  function UpperChar(c: char): char
  {
    if 'a' <= c <= 'z' then (c as int - 32) as char else c
  }

  /** `s.upper()` on the ASCII letters. */
  function Upper(s: string): string
  {
    seq(|s|, i requires 0 <= i < |s| => UpperChar(s[i]))
  }

  function UpperAll(ws: seq<string>): seq<string>
  {
    seq(|ws|, i requires 0 <= i < |ws| => Upper(ws[i]))
  }

  /** `s.split()`: the maximal runs of non-whitespace characters, in order. */
  function Split(s: string): seq<string>
  {
    SplitFrom(s, "")
  }

  /** Splitting `s` while the word `cur` is still being collected. */
  function SplitFrom(s: string, cur: string): seq<string>
    decreases |s|
  {
    if s == [] then Flush(cur)
    else if IsSpace(s[0]) then Flush(cur) + SplitFrom(s[1..], "")
    else SplitFrom(s[1..], cur + [s[0]])
  }

  function Flush(cur: string): seq<string>
  {
    if cur == "" then [] else [cur]
  }

  /** `" ".join(ws)`. */
  function JoinSpaces(ws: seq<string>): string
  {
    if ws == [] then ""
    else if |ws| == 1 then ws[0]
    else ws[0] + " " + JoinSpaces(ws[1..])
  }

  /** The characters of `s` that are not whitespace, in order. */
  function NonSpace(s: string): string
  {
    if s == [] then "" else (if IsSpace(s[0]) then "" else [s[0]]) + NonSpace(s[1..])
  }

  function Concat(ws: seq<string>): string
  {
    if ws == [] then "" else ws[0] + Concat(ws[1..])
  }

  lemma UpperCharKeepsSpace(c: char)
    ensures IsSpace(UpperChar(c)) == IsSpace(c)
  {
  }

  /** Upper-casing is idempotent, so upper-casing both sides of a
      comparison twice changes nothing. */
  lemma UpperIdempotent(s: string)
    ensures Upper(Upper(s)) == Upper(s)
  {
  }

  lemma UpperAllIdempotent(ws: seq<string>)
    ensures UpperAll(UpperAll(ws)) == UpperAll(ws)
  {
    forall i | 0 <= i < |ws| ensures UpperAll(UpperAll(ws))[i] == UpperAll(ws)[i] {
      UpperIdempotent(ws[i]);
    }
  }

  lemma {:induction false} SplitFromWords(s: string, cur: string)
    requires forall i :: 0 <= i < |cur| ==> !IsSpace(cur[i])
    ensures forall k :: 0 <= k < |SplitFrom(s, cur)| ==> IsWord(SplitFrom(s, cur)[k])
    decreases |s|
  {
    if s == [] {
    } else if IsSpace(s[0]) {
      SplitFromWords(s[1..], "");
    } else {
      SplitFromWords(s[1..], cur + [s[0]]);
    }
  }

  /** Every token `split()` yields is a non-empty word without whitespace. */
  lemma SplitYieldsWords(s: string)
    ensures forall k :: 0 <= k < |Split(s)| ==> IsWord(Split(s)[k])
  {
    SplitFromWords(s, "");
  }

  lemma {:induction false} SplitFromConcat(s: string, cur: string)
    ensures Concat(SplitFrom(s, cur)) == cur + NonSpace(s)
    decreases |s|
  {
    if s == [] {
      assert NonSpace(s) == "";
    } else if IsSpace(s[0]) {
      SplitFromConcat(s[1..], "");
      ConcatAppend(Flush(cur), SplitFrom(s[1..], ""));
      assert Concat(Flush(cur)) == cur;
    } else {
      SplitFromConcat(s[1..], cur + [s[0]]);
      assert NonSpace(s) == [s[0]] + NonSpace(s[1..]);
    }
  }

  lemma {:induction false} ConcatAppend(a: seq<string>, b: seq<string>)
    ensures Concat(a + b) == Concat(a) + Concat(b)
  {
    if a == [] {
      assert a + b == b;
    } else {
      assert (a + b)[1..] == a[1..] + b;
      ConcatAppend(a[1..], b);
    }
  }

  /** `split()` loses only whitespace: gluing the tokens back together gives
      the text with its whitespace removed. */
  lemma SplitKeepsEveryNonSpace(s: string)
    ensures Concat(Split(s)) == NonSpace(s)
  {
    SplitFromConcat(s, "");
  }

  lemma {:induction false} SplitFromWord(w: string, rest: string, cur: string)
    requires forall i :: 0 <= i < |w| ==> !IsSpace(w[i])
    ensures SplitFrom(w + rest, cur) == SplitFrom(rest, cur + w)
    decreases |w|
  {
    if w == [] {
      assert w + rest == rest;
      assert cur + w == cur;
    } else {
      assert (w + rest)[0] == w[0];
      assert (w + rest)[1..] == w[1..] + rest;
      SplitFromWord(w[1..], rest, cur + [w[0]]);
      assert cur + [w[0]] + w[1..] == cur + w;
    }
  }

  /** Splitting undoes joining with single spaces, for words without
      whitespace: `" ".join(ws).split() == ws`. */
  lemma {:induction false} SplitJoin(ws: seq<string>)
    requires forall k :: 0 <= k < |ws| ==> IsWord(ws[k])
    ensures Split(JoinSpaces(ws)) == ws
  {
    if ws == [] {
    } else if |ws| == 1 {
      SplitFromWord(ws[0], "", "");
      assert ws[0] + "" == ws[0];
      assert "" + ws[0] == ws[0];
    } else {
      var rest := " " + JoinSpaces(ws[1..]);
      assert JoinSpaces(ws) == ws[0] + rest;
      SplitFromWord(ws[0], rest, "");
      assert "" + ws[0] == ws[0];
      assert rest[0] == ' ' && rest[1..] == JoinSpaces(ws[1..]);
      SplitJoin(ws[1..]);
      assert ws == [ws[0]] + ws[1..];
    }
  }

  /** A run of whitespace characters, possibly empty. */
  predicate AllSpace(s: string)
  {
    forall i :: 0 <= i < |s| ==> IsSpace(s[i])
  }

  /** The words `ws` laid out between the whitespace runs `seps`:
      `seps[0] + ws[0] + seps[1] + ... + ws[n-1] + seps[n]`. */
  function Interleave(seps: seq<string>, ws: seq<string>): string
    requires |seps| == |ws| + 1
    decreases |ws|
  {
    if ws == [] then seps[0] else seps[0] + ws[0] + Interleave(seps[1..], ws[1..])
  }

  lemma {:induction false} SplitFromSpaceRun(sp: string, rest: string)
    requires AllSpace(sp)
    ensures SplitFrom(sp + rest, "") == SplitFrom(rest, "")
    decreases |sp|
  {
    if sp == [] {
      assert sp + rest == rest;
    } else {
      assert (sp + rest)[0] == sp[0];
      assert (sp + rest)[1..] == sp[1..] + rest;
      SplitFromSpaceRun(sp[1..], rest);
    }
  }

  /** `split()` yields exactly the words, whatever whitespace runs separate
      them, including leading and trailing ones: the tokens are the maximal
      runs of non-whitespace characters. */
  lemma {:induction false} SplitSeparated(seps: seq<string>, ws: seq<string>)
    requires |seps| == |ws| + 1
    requires forall k :: 0 <= k < |seps| ==> AllSpace(seps[k])
    requires forall k :: 0 < k < |ws| ==> seps[k] != ""
    requires forall k :: 0 <= k < |ws| ==> IsWord(ws[k])
    ensures Split(Interleave(seps, ws)) == ws
    decreases |ws|
  {
    if ws == [] {
      SplitFromSpaceRun(seps[0], "");
      assert seps[0] + "" == seps[0];
    } else {
      var y := Interleave(seps[1..], ws[1..]);
      assert Interleave(seps, ws) == seps[0] + (ws[0] + y);
      SplitFromSpaceRun(seps[0], ws[0] + y);
      SplitFromWord(ws[0], y, "");
      assert "" + ws[0] == ws[0];
      if ws[1..] != [] {
        assert seps[1..][0] == seps[1] != "";
        assert y == seps[1] + (ws[1] + Interleave(seps[2..], ws[2..])) by {
          assert seps[1..][1..] == seps[2..] && ws[1..][1..] == ws[2..];
        }
        assert IsSpace(y[0]);
      }
      assert y == [] || IsSpace(y[0]);
      SplitSeparated(seps[1..], ws[1..]);
      assert ws == [ws[0]] + ws[1..];
    }
  }

  lemma {:induction false} SplitFromUpper(s: string, cur: string)
    ensures SplitFrom(Upper(s), Upper(cur)) == UpperAll(SplitFrom(s, cur))
    decreases |s|
  {
    if s == [] {
      assert Upper(s) == [];
    } else {
      var u := Upper(s);
      assert u[0] == UpperChar(s[0]) && u[1..] == Upper(s[1..]);
      UpperCharKeepsSpace(s[0]);
      if IsSpace(s[0]) {
        SplitFromUpper(s[1..], "");
        assert Upper("") == "";
        UpperAllAppend(Flush(cur), SplitFrom(s[1..], ""));
        assert UpperAll(Flush(cur)) == Flush(Upper(cur));
      } else {
        SplitFromUpper(s[1..], cur + [s[0]]);
        assert Upper(cur + [s[0]]) == Upper(cur) + [UpperChar(s[0])];
      }
    }
  }

  lemma UpperAllAppend(a: seq<string>, b: seq<string>)
    ensures UpperAll(a + b) == UpperAll(a) + UpperAll(b)
  {
  }

  /** Upper-casing the text before splitting it gives the upper-cased tokens. */
  lemma SplitUpper(s: string)
    ensures Split(Upper(s)) == UpperAll(Split(s))
  {
    assert Upper("") == "";
    SplitFromUpper(s, "");
  }
}
