/**
 The reversible keyword table of `PrettyPrintArmTemplate`. The template is rewritten with the
 seven pairs in table order, printed, and rewritten back with the same seven pairs in the same
 order. The quoted pairs keep their quotes, so neighbouring occurrences may share one; the bare
 pairs expand one character into an upper-case word.
 */
module Keywords {
  import opened Text

  datatype Pair = Pair(plain: string, coded: string)

  const QUOTE: char := '\"'

  function Quoted(word: string): string
  {
    [QUOTE] + word + [QUOTE]
  }

  // The words of the four quoted pairs
  const WORDS: seq<Pair> := [
    Pair("parameters", "dparameters"),
    Pair("variables", "evariables"),
    Pair("resources", "fresources"),
    Pair("outputs", "zoutputs")
  ]

  const TABLE: seq<Pair> := [
    Pair(Quoted(WORDS[0].plain), Quoted(WORDS[0].coded)),
    Pair(Quoted(WORDS[1].plain), Quoted(WORDS[1].coded)),
    Pair(Quoted(WORDS[2].plain), Quoted(WORDS[2].coded)),
    Pair(Quoted(WORDS[3].plain), Quoted(WORDS[3].coded)),
    Pair(">", "GREATERTHAN"),
    Pair("<", "LESSTHAN"),
    Pair("&", "AMPERSAND")
  ]

  function Step(content: string, pair: Pair, back: bool): string
  {
    if back then Replace(content, pair.coded, pair.plain) else Replace(content, pair.plain, pair.coded)
  }

  function Translate(content: string, table: seq<Pair>, back: bool): string
    decreases |table|
  {
    if table == [] then content else Translate(Step(content, table[0], back), table[1..], back)
  }

  method TranslateJSON(content: string, table: seq<Pair>, reverseTranslate: bool) returns (result: string)
    ensures result == Translate(content, table, reverseTranslate)
  {
    result := content;
    for i := 0 to |table|
      invariant Translate(result, table[i..], reverseTranslate) == Translate(content, table, reverseTranslate)
    {
      var a, b := table[i].plain, table[i].coded;
      assert table[i..][1..] == table[i + 1..];
      if reverseTranslate {
        result := Replace(result, b, a);
      } else {
        result := Replace(result, a, b);
      }
    }
  }

  // ----- quoted keywords, seen on the segments between quotes -----

  // One global replacement of Quoted(w) by Quoted(x), on the quote-free segments of a text.
  // `open` tells whether the quote before the first segment is still unconsumed.
  function Pass(segs: seq<string>, open: bool, w: string, x: string): (r: seq<string>)
    ensures |r| == |segs|
  {
    if |segs| <= 1 then segs
    else if open && segs[0] == w then [x] + Pass(segs[1..], false, w, x)
    else [segs[0]] + Pass(segs[1..], true, w, x)
  }

  // A closing quote after `w` can only be the separator after a first segment equal to `w`.
  lemma {:induction false} FirstSegment(segs: seq<string>, w: string)
    requires |segs| >= 1 && Free(segs, QUOTE) && QUOTE !in w
    ensures w + [QUOTE] <= Join(segs, QUOTE) <==> |segs| >= 2 && segs[0] == w
  {
    var s := Join(segs, QUOTE);
    assert segs[0] == s[..|segs[0]|];
    if |segs| == 1 {
      assert QUOTE !in s && QUOTE in w + [QUOTE];
    } else {
      assert s[|segs[0]|] == QUOTE;
      assert forall k :: 0 <= k < |segs[0]| ==> s[k] in segs[0];
      assert forall k :: 0 <= k < |w| ==> (w + [QUOTE])[k] in w;
      assert (w + [QUOTE])[|w|] == QUOTE;
    }
  }

  lemma {:induction false} ReplaceIsPass(segs: seq<string>, w: string, x: string)
    requires |segs| >= 1 && Free(segs, QUOTE) && QUOTE !in w
    ensures Replace(Join(segs, QUOTE), Quoted(w), Quoted(x)) == Join(Pass(segs, false, w, x), QUOTE)
    ensures Replace([QUOTE] + Join(segs, QUOTE), Quoted(w), Quoted(x)) == [QUOTE] + Join(Pass(segs, true, w, x), QUOTE)
    decreases |segs|
  {
    var s, p, q := Join(segs, QUOTE), Quoted(w), Quoted(x);
    if |segs| == 1 {
      ReplaceSkips(s, [], p, q);
      assert s + [] == s;
      ReplaceUnquoted(segs, w, x);
    } else {
      var tail := segs[1..];
      assert segs == [segs[0]] + tail;
      ReplaceIsPass(tail, w, x);
      PassAfterText(segs[0], tail, w, x);
      if segs[0] == w {
        PassAfterMatch(tail, w, x);
      } else {
        ReplaceUnquoted(segs, w, x);
      }
    }
  }

  lemma PassAfterText(head: string, tail: seq<string>, w: string, x: string)
    requires |tail| >= 1 && QUOTE !in head
    requires Replace([QUOTE] + Join(tail, QUOTE), Quoted(w), Quoted(x)) == [QUOTE] + Join(Pass(tail, true, w, x), QUOTE)
    ensures Replace(Join([head] + tail, QUOTE), Quoted(w), Quoted(x)) == Join(Pass([head] + tail, false, w, x), QUOTE)
  {
    JoinHead(head, tail, QUOTE);
    ReplaceSkips(head, [QUOTE] + Join(tail, QUOTE), Quoted(w), Quoted(x));
    JoinHead(head, Pass(tail, true, w, x), QUOTE);
    assert ([head] + tail)[1..] == tail;
  }

  lemma PassAfterMatch(tail: seq<string>, w: string, x: string)
    requires |tail| >= 1
    requires Replace(Join(tail, QUOTE), Quoted(w), Quoted(x)) == Join(Pass(tail, false, w, x), QUOTE)
    ensures Replace([QUOTE] + Join([w] + tail, QUOTE), Quoted(w), Quoted(x)) ==
      [QUOTE] + Join(Pass([w] + tail, true, w, x), QUOTE)
  {
    var rest := Pass(tail, false, w, x);
    var t, t' := Join(tail, QUOTE), Join(rest, QUOTE);
    assert Pass([w] + tail, true, w, x) == [x] + rest by {
      assert ([w] + tail)[1..] == tail;
    }
    QuotedJoin(w, tail);
    QuotedJoin(x, rest);
    ReplaceHit(Quoted(w), t, Quoted(x));
    assert Quoted(x) + t' == [QUOTE] + Join([x] + rest, QUOTE);
  }

  lemma QuotedJoin(head: string, tail: seq<string>)
    requires |tail| >= 1
    ensures [QUOTE] + Join([head] + tail, QUOTE) == Quoted(head) + Join(tail, QUOTE)
  {
    JoinHead(head, tail, QUOTE);
    Reassociate([QUOTE] + head, [QUOTE], Join(tail, QUOTE));
    Reassociate([QUOTE], head, [QUOTE] + Join(tail, QUOTE));
  }

  lemma ReplaceUnquoted(segs: seq<string>, w: string, x: string)
    requires |segs| >= 1 && Free(segs, QUOTE) && QUOTE !in w
    requires |segs| == 1 || segs[0] != w
    ensures var s := Join(segs, QUOTE);
      Replace([QUOTE] + s, Quoted(w), Quoted(x)) == [QUOTE] + Replace(s, Quoted(w), Quoted(x))
  {
    var s := Join(segs, QUOTE);
    FirstSegment(segs, w);
    PrefixOfCons(Quoted(w), QUOTE, s);
    assert Quoted(w)[1..] == w + [QUOTE];
    ReplaceMiss(QUOTE, s, Quoted(w), Quoted(x));
  }

  lemma {:induction false} PassKeepsFree(segs: seq<string>, open: bool, w: string, x: string)
    requires Free(segs, QUOTE) && QUOTE !in x
    ensures Free(Pass(segs, open, w, x), QUOTE)
  {
    if |segs| > 1 {
      PassKeepsFree(segs[1..], false, w, x);
      PassKeepsFree(segs[1..], true, w, x);
    }
  }

  // Passes over unrelated words can be exchanged, even where two occurrences share a quote.
  lemma {:induction false} PassesCommute(segs: seq<string>, e: bool, f: bool, w: string, x: string, v: string,
        y: string)
    requires w != v && w != y && x != v && x != y
    ensures Pass(Pass(segs, e, w, x), f, v, y) == Pass(Pass(segs, f, v, y), e, w, x)
    decreases |segs|
  {
    if |segs| > 1 {
      var tail := segs[1..];
      var e', f' := !(e && segs[0] == w), !(f && segs[0] == v);
      PassesCommute(tail, e', f', w, x, v, y);
      assert Pass(segs, e, w, x)[1..] == Pass(tail, e', w, x);
      assert Pass(segs, f, v, y)[1..] == Pass(tail, f', v, y);
    }
  }

  // Scanning from the left, with occurrences of `w` consumed as the pass consumes them, no `x` is met between quotes.
  predicate NoLoose(segs: seq<string>, open: bool, w: string, x: string)
  {
    |segs| > 1 ==>
      if open && segs[0] == w then NoLoose(segs[1..], false, w, x)
      else (open ==> segs[0] != x) && NoLoose(segs[1..], true, w, x)
  }

  // There and back for one pair
  function Both(segs: seq<string>, open: bool, w: string, x: string): (r: seq<string>)
    ensures |r| == |segs|
  {
    Pass(Pass(segs, open, w, x), open, x, w)
  }

  // One pass is undone exactly if no coded word was loose: the first loose one would change.
  lemma {:induction false} PassUndone(segs: seq<string>, open: bool, w: string, x: string)
    requires w != x
    ensures Both(segs, open, w, x) == segs <==> NoLoose(segs, open, w, x)
    decreases |segs|
  {
    if |segs| > 1 {
      var open', tail := !(open && segs[0] == w), segs[1..];
      var once := Pass(segs, open, w, x);
      assert once[1..] == Pass(tail, open', w, x);
      assert segs == [segs[0]] + tail;
      if !(open && segs[0] == x) {
        PassUndone(tail, open', w, x);
        assert Both(segs, open, w, x) == [segs[0]] + Both(tail, open', w, x);
        assert Both(segs, open, w, x)[1..] == Both(tail, open', w, x);
      } else {
        assert Both(segs, open, w, x)[0] == w;
      }
    }
  }

  // There and back changes only segments that are one of the pair's words, into one of them.
  lemma {:induction false} PassIsLocal(segs: seq<string>, open: bool, w: string, x: string)
    ensures forall i :: 0 <= i < |segs| ==>
      Pass(segs, open, w, x)[i] == segs[i] || (segs[i] == w && Pass(segs, open, w, x)[i] == x)
    decreases |segs|
  {
    if |segs| > 1 {
      var open' := !(open && segs[0] == w);
      var rest := Pass(segs[1..], open', w, x);
      PassIsLocal(segs[1..], open', w, x);
      forall i | 0 <= i < |segs|
        ensures Pass(segs, open, w, x)[i] == segs[i] || (segs[i] == w && Pass(segs, open, w, x)[i] == x)
      {
        if i > 0 {
          assert Pass(segs, open, w, x)[i] == rest[i - 1] && segs[i] == segs[1..][i - 1];
        }
      }
    }
  }

  lemma {:induction false} AbsentMeansNotLoose(segs: seq<string>, open: bool, w: string, x: string)
    requires NoInner(segs, open, x)
    ensures NoLoose(segs, open, w, x)
    decreases |segs|
  {
    if |segs| > 1 {
      var tail := segs[1..];
      forall i | 0 <= i < |tail| - 1 ensures tail[i] != x {
        assert tail[i] == segs[i + 1];
      }
      AbsentMeansNotLoose(tail, !(open && segs[0] == w), w, x);
    }
  }

  ghost predicate NoInner(segs: seq<string>, open: bool, x: string)
  {
    forall i :: (if open then 0 else 1) <= i < |segs| - 1 ==> segs[i] != x
  }

  lemma {:induction false} AbsentMeansNoInner(segs: seq<string>, x: string)
    requires |segs| >= 1 && Free(segs, QUOTE) && QUOTE !in x && !Contains(Join(segs, QUOTE), Quoted(x))
    ensures NoInner(segs, false, x)
    decreases |segs|
  {
    if |segs| > 1 {
      var tail := segs[1..];
      var s, t := Join(segs, QUOTE), Join(tail, QUOTE);
      assert s == (segs[0] + [QUOTE]) + t;
      ContainsAfter(segs[0] + [QUOTE], t, Quoted(x));
      AbsentMeansNoInner(tail, x);
      ContainsAfter(segs[0], [QUOTE] + t, Quoted(x));
      assert s == segs[0] + ([QUOTE] + t);
      FirstSegment(tail, x);
      PrefixOfCons(Quoted(x), QUOTE, t);
      assert Quoted(x)[1..] == x + [QUOTE];
      forall i | 1 <= i < |segs| - 1 ensures segs[i] != x {
        assert segs[i] == tail[i - 1];
      }
    }
  }

  // A global replacement of one quoted word, read through the segments of the text.
  lemma QuotedStep(s: string, w: string, x: string)
    requires QUOTE !in w && QUOTE !in x
    ensures Split(Replace(s, Quoted(w), Quoted(x)), QUOTE) == Pass(Split(s, QUOTE), false, w, x)
  {
    var segs := Split(s, QUOTE);
    JoinSplit(s, QUOTE);
    ReplaceIsPass(segs, w, x);
    PassKeepsFree(segs, false, w, x);
    SplitJoin(Pass(segs, false, w, x), QUOTE);
  }

  // ----- the quoted part of the table -----

  function PassAll(segs: seq<string>, words: seq<Pair>, back: bool): seq<string>
    decreases |words|
  {
    if words == [] then segs
    else
      var (w, x) := if back then (words[0].coded, words[0].plain) else (words[0].plain, words[0].coded);
      PassAll(Pass(segs, false, w, x), words[1..], back)
  }

  ghost predicate Unrelated(p: Pair, q: Pair)
  {
    p.plain != q.plain && p.plain != q.coded && p.coded != q.plain && p.coded != q.coded
  }

  ghost predicate PairwiseUnrelated(words: seq<Pair>)
  {
    forall i, j :: 0 <= i < j < |words| ==> Unrelated(words[i], words[j])
  }

  lemma {:induction false} UndoMovesFirst(segs: seq<string>, pair: Pair, words: seq<Pair>)
    requires forall i :: 0 <= i < |words| ==> Unrelated(pair, words[i])
    ensures Pass(PassAll(segs, words, false), false, pair.coded, pair.plain)
         == PassAll(Pass(segs, false, pair.coded, pair.plain), words, false)
    decreases |words|
  {
    if words != [] {
      var first := words[0];
      UndoMovesFirst(Pass(segs, false, first.plain, first.coded), pair, words[1..]);
      PassesCommute(segs, false, false, first.plain, first.coded, pair.coded, pair.plain);
    }
  }

  // All pairs there, then all pairs back
  function BothAll(segs: seq<string>, words: seq<Pair>): seq<string>
  {
    PassAll(PassAll(segs, words, false), words, true)
  }

  // Each pair can go there and back on its own.
  lemma BothAllSplits(segs: seq<string>, words: seq<Pair>)
    requires words != [] && PairwiseUnrelated(words)
    ensures BothAll(segs, words) == BothAll(Both(segs, false, words[0].plain, words[0].coded), words[1..])
  {
    UndoMovesFirst(Pass(segs, false, words[0].plain, words[0].coded), words[0], words[1..]);
  }

  ghost predicate IsWordOf(segment: string, words: seq<Pair>)
  {
    exists k :: 0 <= k < |words| && (segment == words[k].plain || segment == words[k].coded)
  }

  lemma BothIsLocal(segs: seq<string>, open: bool, w: string, x: string)
    ensures forall i :: 0 <= i < |segs| ==>
      Both(segs, open, w, x)[i] == segs[i] || (segs[i] in {w, x} && Both(segs, open, w, x)[i] in {w, x})
  {
    PassIsLocal(segs, open, w, x);
    PassIsLocal(Pass(segs, open, w, x), open, x, w);
  }

  lemma {:induction false} BothAllIsLocal(segs: seq<string>, words: seq<Pair>)
    requires PairwiseUnrelated(words)
    ensures |BothAll(segs, words)| == |segs|
    ensures forall i :: 0 <= i < |segs| && !IsWordOf(segs[i], words) ==> BothAll(segs, words)[i] == segs[i]
    decreases |words|
  {
    if words != [] {
      var w, x, rest := words[0].plain, words[0].coded, words[1..];
      var once := Both(segs, false, w, x);
      BothAllSplits(segs, words);
      BothIsLocal(segs, false, w, x);
      BothAllIsLocal(once, rest);
      forall i | 0 <= i < |segs| && !IsWordOf(segs[i], words) ensures BothAll(segs, words)[i] == segs[i] {
        assert segs[i] != w && segs[i] != x;
        assert forall k :: 0 <= k < |rest| ==> rest[k] == words[k + 1];
        assert !IsWordOf(once[i], rest);
      }
    }
  }

  // The pairs are undone together exactly if each is undone on the text as given.
  lemma {:induction false} PassesUndone(segs: seq<string>, words: seq<Pair>)
    requires PairwiseUnrelated(words) && forall k :: 0 <= k < |words| ==> words[k].plain != words[k].coded
    ensures BothAll(segs, words) == segs <==>
      forall k :: 0 <= k < |words| ==> NoLoose(segs, false, words[k].plain, words[k].coded)
    decreases |words|
  {
    if words != [] {
      var w, x, rest := words[0].plain, words[0].coded, words[1..];
      var once := Both(segs, false, w, x);
      BothAllSplits(segs, words);
      PassUndone(segs, false, w, x);
      PassesUndone(segs, rest);
      FirstStaysChanged(segs, words);
      assert forall k :: 0 <= k < |rest| ==> rest[k] == words[k + 1];
    }
  }

  // What the first pair leaves changed, the others leave as it is.
  lemma FirstStaysChanged(segs: seq<string>, words: seq<Pair>)
    requires words != [] && PairwiseUnrelated(words)
    ensures BothAll(segs, words) == segs ==> Both(segs, false, words[0].plain, words[0].coded) == segs
  {
    var w, x, rest := words[0].plain, words[0].coded, words[1..];
    var once := Both(segs, false, w, x);
    BothAllSplits(segs, words);
    BothIsLocal(segs, false, w, x);
    BothAllIsLocal(once, rest);
    forall i | 0 <= i < |segs| ensures once[i] == segs[i] || BothAll(segs, words)[i] != segs[i] {
      if once[i] != segs[i] {
        assert once[i] in {w, x} && !IsWordOf(once[i], rest);
      }
    }
  }

  // ----- bare keywords -----

  const BARE: set<char> := {'>', '<', '&'}

  function Word(c: char): string
    requires c in BARE
  {
    if c == '>' then "GREATERTHAN" else if c == '<' then "LESSTHAN" else "AMPERSAND"
  }

  // The text with every character of `coded` spelled out.
  function Spell(s: string, coded: set<char>): string
    requires coded <= BARE
  {
    if s == [] then []
    else (if s[0] in coded then Word(s[0]) else [s[0]]) + Spell(s[1..], coded)
  }

  lemma {:induction false} SpellConcat(s: string, t: string, coded: set<char>)
    requires coded <= BARE
    ensures Spell(s + t, coded) == Spell(s, coded) + Spell(t, coded)
  {
    if s == [] {
      assert s + t == t;
    } else {
      assert (s + t)[1..] == s[1..] + t;
      SpellConcat(s[1..], t, coded);
    }
  }

  lemma {:induction false} SpellMore(s: string, coded: set<char>, c: char)
    requires coded <= BARE && c in BARE && c !in coded
    ensures Replace(Spell(s, coded), [c], Word(c)) == Spell(s, coded + {c})
  {
    if s != [] {
      var rest := Spell(s[1..], coded);
      SpellMore(s[1..], coded, c);
      SpellsOneMore(s[0], rest, coded, c);
    }
  }

  lemma SpellsOneMore(d: char, rest: string, coded: set<char>, c: char)
    requires coded <= BARE && c in BARE && c !in coded
    ensures Replace((if d in coded then Word(d) else [d]) + rest, [c], Word(c)) ==
      (if d == c || d in coded then Word(d) else [d]) + Replace(rest, [c], Word(c))
  {
    if d == c {
      ReplaceHit([c], rest, Word(c));
    } else if d in coded {
      WordsAreUpper(d);
      ReplaceSkips(Word(d), rest, [c], Word(c));
    } else {
      ReplaceSkips([d], rest, [c], Word(c));
    }
  }

  // No proper suffix of one word is the beginning of another: words cannot straddle.
  lemma WordsDoNotStraddle(c: char, h: char, k: nat)
    requires c in BARE && h in BARE && 1 <= k < |Word(c)|
    ensures Word(c)[k] == Word(h)[0] ==> k + 1 < |Word(c)| && Word(c)[k + 1] != Word(h)[1]
  {
    if c == '>' {
      assert k in {1, 2, 3, 4, 5, 6, 7, 8, 9, 10};
    } else if c == '<' {
      assert k in {1, 2, 3, 4, 5, 6, 7};
    } else {
      assert k in {1, 2, 3, 4, 5, 6, 7, 8};
    }
  }

  lemma TailMissesWord(c: char, k: nat, d: char, rest: string)
    requires c in BARE && d in BARE && 1 <= k < |Word(c)|
    ensures !(Word(c)[k..] <= Word(d) + rest)
  {
    var tail, t := Word(c)[k..], Word(d) + rest;
    WordsDoNotStraddle(c, d, k);
    assert t[0] == Word(d)[0] && t[1] == Word(d)[1];
    assert tail[0] == Word(c)[k] && (|tail| > 1 ==> tail[1] == Word(c)[k + 1]);
  }

  // What follows the first letter of a word occurs in the spelled text only where the text itself had it.
  lemma {:induction false} WordTailIsLiteral(s: string, coded: set<char>, c: char, k: nat)
    requires coded <= BARE && c in BARE && 1 <= k <= |Word(c)|
    ensures Word(c)[k..] <= Spell(s, coded) ==> Word(c)[k..] <= s
    decreases |s|
  {
    var tail, t := Word(c)[k..], Spell(s, coded);
    if k < |Word(c)| && s != [] {
      if s[0] in coded {
        TailMissesWord(c, k, s[0], Spell(s[1..], coded));
      } else {
        WordTailIsLiteral(s[1..], coded, c, k + 1);
        PrefixOfCons(tail, s[0], Spell(s[1..], coded));
        PrefixOfCons(tail, s[0], s[1..]);
        assert s == [s[0]] + s[1..];
      }
    }
  }

  // Reading a word back from a spelled text reads it back from the text itself as well.
  lemma {:induction false} SpellLess(s: string, coded: set<char>, c: char)
    requires coded <= BARE && c in coded
    requires forall h :: h in coded && h != c ==> Word(c)[0] !in Word(h)
    ensures Replace(Spell(s, coded), Word(c), [c]) == Spell(Replace(s, Word(c), [c]), coded - {c})
    decreases |s|
  {
    if s != [] {
      var rest := Spell(s[1..], coded);
      WordsAreUpper(c);
      assert s == [s[0]] + s[1..];
      if Word(c) <= s {
        SpellLessHit(s, coded, c);
      } else {
        SpellLess(s[1..], coded, c);
        ReplaceMiss(s[0], s[1..], Word(c), [c]);
        if s[0] == c {
          ReplaceHit(Word(c), rest, [c]);
        } else if s[0] in coded {
          ReplaceSkips(Word(s[0]), rest, Word(c), [c]);
        } else {
          SpellLessMiss(s, coded, c);
        }
        assert Spell([s[0]] + Replace(s[1..], Word(c), [c]), coded - {c}) ==
          (if s[0] in coded - {c} then Word(s[0]) else [s[0]]) + Spell(Replace(s[1..], Word(c), [c]), coded - {c}) by {
          assert ([s[0]] + Replace(s[1..], Word(c), [c]))[1..] == Replace(s[1..], Word(c), [c]);
        }
      }
    }
  }

  // The word itself is left alone by spelling, and read back.
  lemma SpellLessHit(s: string, coded: set<char>, c: char)
    requires coded <= BARE && c in coded && Word(c) <= s
    requires forall h :: h in coded && h != c ==> Word(c)[0] !in Word(h)
    ensures Replace(Spell(s, coded), Word(c), [c]) == Spell(Replace(s, Word(c), [c]), coded - {c})
    decreases |s|, 0
  {
    var w, tail := Word(c), s[|Word(c)|..];
    WordsAreUpper(c);
    assert s == w + tail;
    SpellLess(tail, coded, c);
    SpellConcat(w, tail, coded);
    SpellUpper(w, coded);
    ReplaceHit(w, Spell(tail, coded), [c]);
    ReplaceHit(w, tail, [c]);
    assert ([c] + Replace(tail, w, [c]))[1..] == Replace(tail, w, [c]);
  }

  lemma SpellLessMiss(s: string, coded: set<char>, c: char)
    requires coded <= BARE && c in coded && s != [] && s[0] !in coded && !(Word(c) <= s)
    ensures Replace(Spell(s, coded), Word(c), [c]) == [s[0]] + Replace(Spell(s[1..], coded), Word(c), [c])
  {
    WordTailIsLiteral(s[1..], coded, c, 1);
    WordsAreUpper(c);
    Whole(s);
    assert Spell(s, coded) == [s[0]] + Spell(s[1..], coded);
    MissAlike(Word(c), s[0], Spell(s[1..], coded), s[1..], [c]);
  }

  lemma MissAlike(w: string, first: char, rest: string, tail: string, q: string)
    requires w != [] && !(w <= [first] + tail) && (w[1..] <= rest ==> w[1..] <= tail)
    ensures Replace([first] + rest, w, q) == [first] + Replace(rest, w, q)
  {
    PrefixOfCons(w, first, rest);
    PrefixOfCons(w, first, tail);
    ReplaceMiss(first, rest, w, q);
  }

  lemma {:induction false} SpellUpper(s: string, coded: set<char>)
    requires coded <= BARE && forall i :: 0 <= i < |s| ==> 'A' <= s[i] <= 'Z'
    ensures Spell(s, coded) == s
  {
    if s != [] {
      SpellUpper(s[1..], coded);
    }
  }

  // ----- upper-case letters: only the bare words have any -----

  function Uppers(s: string): nat
  {
    if s == [] then 0 else (if 'A' <= s[0] <= 'Z' then 1 else 0) + Uppers(s[1..])
  }

  lemma {:induction false} UppersConcat(s: string, t: string)
    ensures Uppers(s + t) == Uppers(s) + Uppers(t)
  {
    if s == [] {
      assert s + t == t;
    } else {
      assert (s + t)[1..] == s[1..] + t;
      UppersConcat(s[1..], t);
    }
  }

  lemma {:induction false} UppersOfUpper(s: string)
    requires forall i :: 0 <= i < |s| ==> 'A' <= s[i] <= 'Z'
    ensures Uppers(s) == |s|
  {
    if s != [] {
      UppersOfUpper(s[1..]);
    }
  }

  // Replacing by text with no more upper-case letters; with fewer, every occurrence shows.
  lemma {:induction false} ReplaceUppers(s: string, p: string, q: string)
    requires p != [] && Uppers(q) <= Uppers(p)
    ensures Uppers(Replace(s, p, q)) <= Uppers(s)
    ensures Uppers(q) == Uppers(p) ==> Uppers(Replace(s, p, q)) == Uppers(s)
    ensures Uppers(q) < Uppers(p) && Contains(s, p) ==> Uppers(Replace(s, p, q)) < Uppers(s)
    ensures !Contains(s, p) ==> Replace(s, p, q) == s
    decreases |s|
  {
    if s != [] {
      if p <= s {
        var rest := s[|p|..];
        assert s == p + rest;
        ReplaceUppers(rest, p, q);
        UppersConcat(p, rest);
        UppersConcat(q, Replace(rest, p, q));
      } else {
        ReplaceUppers(s[1..], p, q);
        UppersConcat([s[0]], Replace(s[1..], p, q));
        UppersConcat([s[0]], s[1..]);
        assert s == [s[0]] + s[1..];
      }
    }
  }

  // Text that spelling leaves alone and that no word contains.
  ghost predicate Calm(s: string)
  {
    forall i :: 0 <= i < |s| ==> s[i] !in BARE && !('A' <= s[i] <= 'Z')
  }

  lemma WordsAreUpper(c: char)
    requires c in BARE
    ensures |Word(c)| >= 2 && forall i :: 0 <= i < |Word(c)| ==> 'A' <= Word(c)[i] <= 'Z'
  {
  }

  lemma {:induction false} CalmPrefix(p: string, s: string, coded: set<char>)
    requires coded <= BARE && Calm(p)
    ensures p <= Spell(s, coded) <==> p <= s
  {
    if p != [] && s != [] {
      var t := Spell(s, coded);
      if s[0] in coded {
        WordsAreUpper(s[0]);
        assert t[0] == Word(s[0])[0];
      } else {
        CalmPrefix(p[1..], s[1..], coded);
        PrefixOfCons(p, s[0], Spell(s[1..], coded));
        PrefixOfCons(p, s[0], s[1..]);
        assert s == [s[0]] + s[1..];
      }
    }
  }

  lemma {:induction false} CalmSpell(p: string, coded: set<char>)
    requires coded <= BARE && Calm(p)
    ensures Spell(p, coded) == p
  {
    if p != [] {
      CalmSpell(p[1..], coded);
    }
  }

  // Replacing calm text and spelling out characters can be exchanged.
  lemma {:induction false} CalmReplaceCommutes(s: string, coded: set<char>, p: string, q: string)
    requires coded <= BARE && Calm(p) && Calm(q) && p != []
    ensures Replace(Spell(s, coded), p, q) == Spell(Replace(s, p, q), coded)
    decreases |s|
  {
    if s != [] {
      CalmPrefix(p, s, coded);
      if p <= s {
        var rest := s[|p|..];
        assert s == p + rest;
        CalmReplaceCommutes(rest, coded, p, q);
        SpellConcat(p, rest, coded);
        CalmSpell(p, coded);
        ReplaceHit(p, Spell(rest, coded), q);
        SpellConcat(q, Replace(rest, p, q), coded);
        CalmSpell(q, coded);
      } else {
        var rest := Spell(s[1..], coded);
        CalmReplaceCommutes(s[1..], coded, p, q);
        if s[0] in coded {
          WordsAreUpper(s[0]);
          ReplaceSkips(Word(s[0]), rest, p, q);
        } else {
          ReplaceMiss(s[0], rest, p, q);
        }
      }
    }
  }

  // ----- the whole table -----

  lemma {:induction false} TranslateConcat(s: string, first: seq<Pair>, second: seq<Pair>, back: bool)
    ensures Translate(s, first + second, back) == Translate(Translate(s, first, back), second, back)
    decreases |first|
  {
    if first == [] {
      assert first + second == second;
    } else {
      assert (first + second)[1..] == first[1..] + second;
      TranslateConcat(Step(s, first[0], back), first[1..], second, back);
    }
  }

  ghost predicate Proper(word: string)
  {
    QUOTE !in word && Calm(word)
  }

  ghost predicate QuotedTable(table: seq<Pair>, words: seq<Pair>)
  {
    |table| == |words| &&
    forall i :: 0 <= i < |words| ==>
      Proper(words[i].plain) && Proper(words[i].coded) &&
      table[i] == Pair(Quoted(words[i].plain), Quoted(words[i].coded))
  }

  lemma {:induction false} QuotedTableIsPassAll(s: string, table: seq<Pair>, words: seq<Pair>, back: bool)
    requires QuotedTable(table, words)
    ensures Split(Translate(s, table, back), QUOTE) == PassAll(Split(s, QUOTE), words, back)
    decreases |table|
  {
    if table != [] {
      var w, x := words[0].plain, words[0].coded;
      if back {
        QuotedStep(s, x, w);
      } else {
        QuotedStep(s, w, x);
      }
      QuotedTableIsPassAll(Step(s, table[0], back), table[1..], words[1..], back);
    }
  }

  lemma {:induction false} QuotedTableIgnoresSpelling(s: string, table: seq<Pair>, words: seq<Pair>)
    requires QuotedTable(table, words)
    ensures Translate(Spell(s, BARE), table, true) == Spell(Translate(s, table, true), BARE)
    decreases |table|
  {
    if table != [] {
      CalmReplaceCommutes(s, BARE, table[0].coded, table[0].plain);
      QuotedTableIgnoresSpelling(Step(s, table[0], true), table[1..], words[1..]);
    }
  }

  predicate AllLower(word: string)
  {
    forall i :: 0 <= i < |word| ==> 'a' <= word[i] <= 'z'
  }

  lemma LowerIsProper(pair: Pair)
    requires AllLower(pair.plain) && AllLower(pair.coded)
    ensures Proper(pair.plain) && Proper(pair.coded)
  {
  }

  lemma WordsAreProper()
    ensures forall k :: 0 <= k < |WORDS| ==> Proper(WORDS[k].plain) && Proper(WORDS[k].coded)
  {
    LowerIsProper(Pair("parameters", "dparameters"));
    LowerIsProper(Pair("variables", "evariables"));
    LowerIsProper(Pair("resources", "fresources"));
    LowerIsProper(Pair("outputs", "zoutputs"));
  }

  /** The coded words sort in the order in which a template is to list its parts. */
  lemma CodedWordsSort()
    ensures [WORDS[0].plain, WORDS[1].plain, WORDS[2].plain, WORDS[3].plain] ==
      ["parameters", "variables", "resources", "outputs"]
    ensures forall i, j :: 0 <= i < j < |WORDS| ==> Before(WORDS[i].coded, WORDS[j].coded)
  {
    assert WORDS[0].coded[0] == 'd' && WORDS[1].coded[0] == 'e' && WORDS[2].coded[0] == 'f' && WORDS[3].coded[0] == 'z';
  }

  lemma WordsAreUnrelated()
    ensures PairwiseUnrelated(WORDS)
  {
    assert WORDS[0].plain[0] == 'p' && WORDS[0].coded[0] == 'd';
    assert WORDS[1].plain[0] == 'v' && WORDS[1].coded[0] == 'e';
    assert WORDS[2].plain[0] == 'r' && WORDS[2].coded[0] == 'f';
    assert WORDS[3].plain[0] == 'o' && WORDS[3].coded[0] == 'z';
  }

  lemma TableIsQuotedThenBare()
    ensures QuotedTable(TABLE[..4], WORDS)
    ensures |TABLE| == 7 && TABLE == TABLE[..4] + TABLE[4..]
    ensures TABLE[4..] == [Pair(">", Word('>')), Pair("<", Word('<')), Pair("&", Word('&'))]
  {
    WordsAreProper();
  }

  lemma TranslateThree(s: string, table: seq<Pair>, back: bool)
    requires |table| == 3
    ensures Translate(s, table, back) == Step(Step(Step(s, table[0], back), table[1], back), table[2], back)
  {
    var s1 := Step(s, table[0], back);
    var s2 := Step(s1, table[1], back);
    assert Translate(s1, table[1..], back) == Translate(s2, table[1..][1..], back);
    assert Translate(s2, table[2..], back) == Step(s2, table[2], back);
    assert table[1..][1..] == table[2..];
  }

  lemma {:induction false} SpellNothing(s: string)
    ensures Spell(s, {}) == s
  {
    if s != [] {
      SpellNothing(s[1..]);
    }
  }

  lemma BareForward(s: string)
    ensures Translate(s, TABLE[4..], false) == Spell(s, BARE)
  {
    TableIsQuotedThenBare();
    TranslateThree(s, TABLE[4..], false);
    SpellNothing(s);
    SpellMore(s, {}, '>');
    SpellMore(s, {'>'}, '<');
    SpellMore(s, {'>', '<'}, '&');
    assert {} + {'>'} == {'>'} && {'>'} + {'<'} == {'>', '<'} && {'>', '<'} + {'&'} == BARE;
  }

  // The three bare words of a text read as their characters
  function Unspell(s: string): string
  {
    Replace(Replace(Replace(s, Word('>'), ['>']), Word('<'), ['<']), Word('&'), ['&'])
  }

  lemma UnspellSteps(s: string)
    ensures Replace(Replace(Replace(Spell(s, BARE), Word('>'), ['>']), Word('<'), ['<']), Word('&'), ['&']) ==
      Unspell(s)
  {
    var t := Replace(s, Word('>'), ['>']);
    assert BARE - {'>'} == {'<', '&'} && {'<', '&'} - {'<'} == {'&'} && {'&'} - {'&'} == {};
    SpellLess(s, BARE, '>');
    SpellLess(t, {'<', '&'}, '<');
    SpellLess(Replace(t, Word('<'), ['<']), {'&'}, '&');
    SpellNothing(Unspell(s));
  }

  lemma BareBack(s: string)
    ensures Translate(Spell(s, BARE), TABLE[4..], true) == Unspell(s)
  {
    TableIsQuotedThenBare();
    TranslateThree(Spell(s, BARE), TABLE[4..], true);
    UnspellSteps(s);
  }

  predicate NoBareWord(s: string)
  {
    !Contains(s, Word('>')) && !Contains(s, Word('<')) && !Contains(s, Word('&'))
  }

  lemma WordHasUppers(c: char)
    requires c in BARE
    ensures Uppers([c]) < Uppers(Word(c))
  {
    WordsAreUpper(c);
    UppersOfUpper(Word(c));
  }

  // Reading the words loses upper-case letters exactly if there are any words.
  lemma UnspellUppers(s: string)
    ensures NoBareWord(s) ==> Unspell(s) == s
    ensures !NoBareWord(s) ==> Uppers(Unspell(s)) < Uppers(s)
  {
    var t := Replace(s, Word('>'), ['>']);
    var u := Replace(t, Word('<'), ['<']);
    WordHasUppers('>');
    WordHasUppers('<');
    WordHasUppers('&');
    ReplaceUppers(s, Word('>'), ['>']);
    ReplaceUppers(t, Word('<'), ['<']);
    ReplaceUppers(u, Word('&'), ['&']);
  }

  lemma {:induction false} CalmUppers(s: string)
    requires Calm(s)
    ensures Uppers(s) == 0
  {
    if s != [] {
      CalmUppers(s[1..]);
    }
  }

  lemma {:induction false} QuotedTableUppers(s: string, table: seq<Pair>, words: seq<Pair>, back: bool)
    requires QuotedTable(table, words)
    ensures Uppers(Translate(s, table, back)) == Uppers(s)
    decreases |table|
  {
    if table != [] {
      CalmUppers(table[0].plain);
      CalmUppers(table[0].coded);
      ReplaceUppers(s, table[0].plain, table[0].coded);
      ReplaceUppers(s, table[0].coded, table[0].plain);
      QuotedTableUppers(Step(s, table[0], back), table[1..], words[1..], back);
    }
  }

  // The quoted pairs there and back
  function QuotedBoth(s: string): string
  {
    Translate(Translate(s, TABLE[..4], false), TABLE[..4], true)
  }

  // The whole way there and back: the quoted pairs, then the bare words.
  lemma ThereAndBack(content: string)
    ensures Translate(Translate(content, TABLE, false), TABLE, true) == Unspell(QuotedBoth(content))
  {
    var quoted, bare := TABLE[..4], TABLE[4..];
    TableIsQuotedThenBare();
    var u := Translate(content, quoted, false);
    TranslateConcat(content, quoted, bare, false);
    BareForward(u);
    TranslateConcat(Spell(u, BARE), quoted, bare, true);
    QuotedTableIgnoresSpelling(u, quoted, WORDS);
    BareBack(QuotedBoth(content));
  }

  ghost predicate NoLooseWord(s: string)
  {
    forall k :: 0 <= k < |WORDS| ==> NoLoose(Split(s, QUOTE), false, WORDS[k].plain, WORDS[k].coded)
  }

  lemma QuotedBothUndone(content: string)
    ensures QuotedBoth(content) == content <==> NoLooseWord(content)
  {
    var quoted, words, segs := TABLE[..4], WORDS, Split(content, QUOTE);
    TableIsQuotedThenBare();
    WordsAreUnrelated();
    PassesUndone(segs, words);
    QuotedTableIsPassAll(content, quoted, words, false);
    QuotedTableIsPassAll(Translate(content, quoted, false), quoted, words, true);
    JoinSplit(content, QUOTE);
    JoinSplit(QuotedBoth(content), QUOTE);
  }

  /** Exactly the texts without a bare word and without a loose quoted word survive the way there and back. */
  lemma RoundTripExactly(content: string)
    ensures Translate(Translate(content, TABLE, false), TABLE, true) == content <==>
      NoBareWord(content) && NoLooseWord(content)
  {
    var v := QuotedBoth(content);
    ThereAndBack(content);
    QuotedBothUndone(content);
    UnspellUppers(v);
    TableIsQuotedThenBare();
    QuotedTableUppers(content, TABLE[..4], WORDS, false);
    QuotedTableUppers(Translate(content, TABLE[..4], false), TABLE[..4], WORDS, true);
  }

  /** Text free of the seven coded strings survives the way there and back. */
  lemma RoundTrip(content: string)
    requires forall i :: 0 <= i < |TABLE| ==> !Contains(content, TABLE[i].coded)
    ensures Translate(Translate(content, TABLE, false), TABLE, true) == content
  {
    var segs := Split(content, QUOTE);
    TableIsQuotedThenBare();
    RoundTripExactly(content);
    JoinSplit(content, QUOTE);
    forall k | 0 <= k < |WORDS| ensures NoLoose(segs, false, WORDS[k].plain, WORDS[k].coded) {
      assert TABLE[k] == TABLE[..4][k];
      AbsentMeansNoInner(segs, WORDS[k].coded);
      AbsentMeansNotLoose(segs, false, WORDS[k].plain, WORDS[k].coded);
    }
    assert TABLE[4].coded == Word('>') && TABLE[5].coded == Word('<') && TABLE[6].coded == Word('&');
  }

  lemma {:induction false} QuotedTableSkips(s: string, table: seq<Pair>, words: seq<Pair>)
    requires QuotedTable(table, words) && QUOTE !in s
    ensures Translate(s, table, false) == s
    decreases |table|
  {
    if table != [] {
      ReplaceSkips(s, [], table[0].plain, table[0].coded);
      assert s + [] == s;
      QuotedTableSkips(s, table[1..], words[1..]);
    }
  }

  lemma {:induction false} ForwardWithoutQuotes(s: string)
    requires QUOTE !in s
    ensures Translate(s, TABLE, false) == Spell(s, BARE)
  {
    TableIsQuotedThenBare();
    TranslateConcat(s, TABLE[..4], TABLE[4..], false);
    QuotedTableSkips(s, TABLE[..4], WORDS);
    BareForward(s);
  }

  lemma UpperIsFixed(word: string)
    requires forall i :: 0 <= i < |word| ==> 'A' <= word[i] <= 'Z'
    ensures Translate(word, TABLE, false) == word
  {
    SpellUpper(word, BARE);
    ForwardWithoutQuotes(word);
  }

  /** The condition is needed: a bare character and its word are coded alike, so no way back serves both. */
  lemma CodedWordIsLost(c: char)
    requires c in BARE
    ensures Translate([c], TABLE, false) == Word(c) == Translate(Word(c), TABLE, false)
  {
    assert Spell([c], BARE) == Word(c) + Spell([], BARE);
    ForwardWithoutQuotes([c]);
    WordsAreUpper(c);
    UpperIsFixed(Word(c));
  }
}
