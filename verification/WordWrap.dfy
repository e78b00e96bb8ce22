/** Greedy word wrapping of report text. Texts are single-byte characters, as the report's sanitizer leaves them. */
module WordWrap {
  import opened Text

  // ----- words and lines -----

  function WordEnd(s: string): (n: nat)
    ensures n <= |s|
    ensures forall i :: 0 <= i < n ==> !IsSpace(s[i])
    ensures n < |s| ==> IsSpace(s[n])
  {
    if s == [] || IsSpace(s[0]) then 0 else 1 + WordEnd(s[1..])
  }

  /** The maximal runs of non-space characters. */
  function Words(s: string): seq<string>
    decreases |s|
  {
    if s == [] then []
    else if IsSpace(s[0]) then Words(s[1..])
    else [s[..WordEnd(s)]] + Words(s[WordEnd(s)..])
  }

  predicate IsWord(w: string) {
    w != [] && forall i :: 0 <= i < |w| ==> !IsSpace(w[i])
  }

  function Join(words: seq<string>): string {
    if words == [] then [] else if |words| == 1 then words[0] else Join(words[..|words| - 1]) + " " + words[|words| - 1]
  }

  function AllWords(lines: seq<string>): seq<string> {
    if lines == [] then [] else Words(lines[0]) + AllWords(lines[1..])
  }

  lemma {:induction false} WordsAreWords(s: string)
    ensures forall i :: 0 <= i < |Words(s)| ==> IsWord(Words(s)[i])
    decreases |s|
  {
    if s != [] {
      if IsSpace(s[0]) {
        WordsAreWords(s[1..]);
      } else {
        WordsAreWords(s[WordEnd(s)..]);
      }
    }
  }

  lemma {:induction false} WordsOfWord(w: string, rest: string)
    requires IsWord(w) && (rest == [] || IsSpace(rest[0]))
    ensures Words(w + rest) == [w] + Words(rest)
  {
    WordEndOf(w, rest);
    assert (w + rest)[..|w|] == w && (w + rest)[|w|..] == rest;
  }

  lemma {:induction false} WordEndOf(w: string, rest: string)
    requires (forall i :: 0 <= i < |w| ==> !IsSpace(w[i])) && (rest == [] || IsSpace(rest[0]))
    ensures WordEnd(w + rest) == |w|
  {
    if w == [] {
      assert w + rest == rest;
    } else {
      assert (w + rest)[1..] == w[1..] + rest;
      WordEndOf(w[1..], rest);
    }
  }

  /** A space separates words: what is on its left and what is on its right do not mix. */
  lemma {:induction false} WordsSplitAtSpace(a: string, b: string)
    ensures Words(a + " " + b) == Words(a) + Words(b)
    decreases |a|
  {
    var s := a + " " + b;
    if a == [] {
      assert s[1..] == b;
    } else if IsSpace(a[0]) {
      hide WordEnd;
      assert s[1..] == a[1..] + " " + b;
      WordsSplitAtSpace(a[1..], b);
    } else {
      var n := WordEnd(a);
      assert n > 0;
      hide WordEnd, Words;
      WordsSplitAtSpace(a[n..], b);
      var rest := a[n..] + " " + b;
      assert s == a[..n] + rest && a == a[..n] + a[n..];
      WordsOfWord(a[..n], rest);
      WordsOfWord(a[..n], a[n..]);
    }
  }

  lemma {:induction false} WordsOfJoin(words: seq<string>)
    requires forall i :: 0 <= i < |words| ==> IsWord(words[i])
    ensures Words(Join(words)) == words
  {
    if |words| == 1 {
      WordsOfWord(words[0], []);
      assert words[0] + [] == words[0];
    } else if |words| > 1 {
      var (front, last) := (words[..|words| - 1], words[|words| - 1]);
      WordsOfJoin(front);
      WordsSplitAtSpace(Join(front), last);
      WordsOfWord(last, []);
      assert last + [] == last;
    }
  }

  lemma {:induction false} AllWordsAppend(lines: seq<string>, line: string)
    ensures AllWords(lines + [line]) == AllWords(lines) + Words(line)
  {
    if lines == [] {
      assert lines + [line] == [line];
    } else {
      assert (lines + [line])[1..] == lines[1..] + [line];
      AllWordsAppend(lines[1..], line);
    }
  }

  ghost predicate IsGap(c: char) {
    c == ' ' || c == '\t' || c == '\n' || c == '\r' || c as int == 11 || c as int == 12
  }

  /** A stretch of the text without gaps that cannot be made longer. */
  ghost predicate IsRun(s: string, i: int, k: int) {
    && 0 <= i < k <= |s| && (forall j :: i <= j < k ==> !IsGap(s[j]))
    && (i > 0 ==> IsGap(s[i - 1])) && (k < |s| ==> IsGap(s[k]))
  }

  datatype Run = Run(first: nat, end: nat)

  /** `runs` are the runs of the text from `from` on, in order, and `words` is what they hold. */
  ghost predicate AreRuns(s: string, from: nat, runs: seq<Run>, words: seq<string>) {
    && |words| == |runs|
    && (forall r :: 0 <= r < |runs| ==> HoldsRun(s, runs[r], words[r]) && runs[r].first >= from)
    && (forall r, t :: 0 <= r < t < |runs| ==> runs[r].end < runs[t].first)
    && HasAllRuns(s, from, runs)
  }

  ghost predicate HasAllRuns(s: string, from: nat, runs: seq<Run>) {
    forall i: nat, k: nat :: IsRun(s, i, k) && i >= from ==> Run(i, k) in runs
  }

  ghost predicate HoldsRun(s: string, run: Run, word: string) {
    IsRun(s, run.first, run.end) && word == s[run.first..run.end]
  }

  /** The words of a text are its runs, each of them and in order. */
  lemma {:induction false} WordsAreRuns(s: string, from: nat) returns (runs: seq<Run>)
    requires from <= |s| && (0 < from < |s| && !IsGap(s[from]) ==> IsGap(s[from - 1]))
    ensures AreRuns(s, from, runs, Words(s[from..]))
    decreases |s| - from
  {
    var rest := s[from..];
    if from == |s| {
      runs := [];
    } else if IsSpace(s[from]) {
      assert rest[1..] == s[from + 1..];
      runs := WordsAreRuns(s, from + 1);
      SkipGap(s, from, runs, Words(s[from + 1..]));
    } else {
      var end := FirstRun(s, from);
      var later := WordsAreRuns(s, end);
      runs := [Run(from, end)] + later;
      PrependRun(s, from, end, later, Words(s[end..]));
    }
    hide AreRuns;
  }

  lemma FirstRun(s: string, from: nat) returns (end: nat)
    requires from < |s| && !IsGap(s[from]) && (0 < from ==> IsGap(s[from - 1]))
    ensures IsRun(s, from, end)
    ensures Words(s[from..]) == [s[from..end]] + Words(s[end..])
  {
    var rest := s[from..];
    var n := WordEnd(rest);
    end := from + n;
    assert rest[0] == s[from] && n > 0;
    assert rest[n..] == s[end..] && rest[..n] == s[from..end];
    assert Words(rest) == [rest[..n]] + Words(rest[n..]) by {
      hide WordEnd;
    }
    hide WordEnd, Words;
    assert forall j :: from <= j < end ==> s[j] == rest[j - from];
    assert end < |s| ==> s[end] == rest[n];
  }

  lemma SkipGap(s: string, from: nat, runs: seq<Run>, words: seq<string>)
    requires from < |s| && IsGap(s[from]) && AreRuns(s, from + 1, runs, words)
    ensures AreRuns(s, from, runs, words)
  {
    assert forall i, k :: IsRun(s, i, k) ==> i != from;
    hide IsRun, IsGap;
  }

  lemma PrependRun(s: string, from: nat, end: nat, later: seq<Run>, words: seq<string>)
    requires IsRun(s, from, end) && AreRuns(s, end, later, words)
    ensures AreRuns(s, from, [Run(from, end)] + later, [s[from..end]] + words)
  {
    RunsAfter(s, from, end, later);
    assert HoldsRun(s, Run(from, end), s[from..end]);
    HasAllWith(s, from, end, later);
    hide IsRun, HoldsRun, IsGap, HasAllRuns;
    var (runs, all) := ([Run(from, end)] + later, [s[from..end]] + words);
    forall r | 0 <= r < |runs|
      ensures HoldsRun(s, runs[r], all[r]) && runs[r].first >= from
    {
      assert r > 0 ==> runs[r] == later[r - 1] && all[r] == words[r - 1];
    }
    forall r, t | 0 <= r < t < |runs|
      ensures runs[r].end < runs[t].first
    {
      assert runs[t] == later[t - 1] && (r > 0 ==> runs[r] == later[r - 1]);
    }
  }

  lemma HasAllWith(s: string, from: nat, end: nat, later: seq<Run>)
    requires forall i: nat, k: nat :: IsRun(s, i, k) && i >= from ==> i >= end || (i == from && k == end)
    requires HasAllRuns(s, end, later)
    ensures HasAllRuns(s, from, [Run(from, end)] + later)
  {
    hide IsRun;
    assert ([Run(from, end)] + later)[0] == Run(from, end);
  }

  lemma RunsAfter(s: string, from: nat, end: nat, later: seq<Run>)
    requires IsRun(s, from, end)
    requires forall r :: 0 <= r < |later| ==> IsRun(s, later[r].first, later[r].end) && later[r].first >= end
    ensures forall r :: 0 <= r < |later| ==> end < later[r].first
    ensures forall i: nat, k: nat :: IsRun(s, i, k) && i >= from ==> i >= end || (i == from && k == end)
  {
  }

  // ----- how wide words are -----

  /** The width of the first `m` words with a space after each. */
  function Room(words: seq<string>, m: nat): nat
    requires m <= |words|
  {
    if m == 0 then 0 else |words[0]| + 1 + Room(words[1..], m - 1)
  }

  lemma {:induction false} RoomIsMonotone(words: seq<string>, m: nat, n: nat)
    requires m <= n <= |words|
    ensures Room(words, m) + (n - m) <= Room(words, n)
  {
    if m == 0 {
      if n > 0 {
        RoomIsMonotone(words[1..], 0, n - 1);
      }
    } else {
      RoomIsMonotone(words[1..], m - 1, n - 1);
    }
  }

  lemma {:induction false} RoomOfSuffix(words: seq<string>, i: nat, m: nat)
    requires i <= m <= |words|
    ensures Room(words[i..], m - i) <= Room(words, m)
  {
    if i > 0 {
      assert words[i..] == words[1..][i - 1..];
      RoomOfSuffix(words[1..], i - 1, m - 1);
    } else {
      assert words[0..] == words;
    }
  }

  lemma {:induction false} RoomOfPrefix(words: seq<string>, more: seq<string>, m: nat)
    requires m <= |words|
    ensures Room(words + more, m) == Room(words, m)
  {
    if m > 0 {
      assert (words + more)[1..] == words[1..] + more;
      RoomOfPrefix(words[1..], more, m - 1);
    }
  }

  /** No line is narrower than its words with single spaces between them. */
  lemma {:induction false} LineHoldsItsWords(s: string)
    ensures Room(Words(s), |Words(s)|) <= |s| + 1
    decreases |s|
  {
    if s != [] {
      if IsSpace(s[0]) {
        LineHoldsItsWords(s[1..]);
      } else {
        var n := WordEnd(s);
        var rest := s[n..];
        assert Words(s)[1..] == Words(rest);
        if rest != [] {
          LineHoldsItsWords(rest[1..]);
          assert Words(rest) == Words(rest[1..]);
        }
      }
    }
  }

  // ----- the greedy layout -----

  /** The first `m` words make an admissible line: they fit, or there is at most one. */
  predicate Fits(words: seq<string>, m: nat, max: nat) {
    m <= |words| && (m <= 1 || Room(words, m) <= max + 1)
  }

  /** How many more words fit on a line that is `len` wide already. */
  function Extend(len: nat, words: seq<string>, max: nat): (n: nat)
    ensures n <= |words|
    decreases |words|
  {
    if words == [] || len + 1 + |words[0]| > max then 0 else 1 + Extend(len + 1 + |words[0]|, words[1..], max)
  }

  /** How many lines greedy wrapping makes of `words`. */
  function Greedy(words: seq<string>, max: nat): nat
    decreases |words|, 0
  {
    if words == [] then 0 else GreedyFrom(|words[0]|, words[1..], max)
  }

  /** The same with an open line that is `len` wide. */
  function GreedyFrom(len: nat, words: seq<string>, max: nat): nat
    decreases |words|, 1
  {
    1 + Greedy(words[Extend(len, words, max)..], max)
  }

  lemma {:induction false} ExtendIsMaximal(len: nat, words: seq<string>, max: nat, m: nat)
    requires m <= |words|
    ensures m <= Extend(len, words, max) ==> m == 0 || len + Room(words, m) <= max
    ensures m > Extend(len, words, max) ==> len + Room(words, m) > max
    decreases |words|
  {
    if m > 0 {
      if len + 1 + |words[0]| > max {
        RoomIsMonotone(words[1..], 0, m - 1);
      } else {
        ExtendIsMaximal(len + 1 + |words[0]|, words[1..], max, m - 1);
      }
    }
  }

  /** The number of words greedy wrapping puts on its first line. */
  function Take(words: seq<string>, max: nat): nat
    requires words != []
  {
    1 + Extend(|words[0]|, words[1..], max)
  }

  lemma TakeIsMaximal(words: seq<string>, max: nat, m: nat)
    requires words != []
    ensures m <= Take(words, max) ==> Fits(words, m, max)
    ensures Fits(words, m, max) ==> m <= Take(words, max)
    ensures Greedy(words, max) == 1 + Greedy(words[Take(words, max)..], max)
  {
    if 0 < m <= |words| {
      ExtendIsMaximal(|words[0]|, words[1..], max, m - 1);
    }
    assert words[1..][Extend(|words[0]|, words[1..], max)..] == words[Take(words, max)..];
  }

  /** Fewer words left never need more lines. */
  lemma {:induction false} GreedyIsMonotone(words: seq<string>, i: nat, j: nat, max: nat)
    requires i <= j <= |words|
    ensures Greedy(words[j..], max) <= Greedy(words[i..], max)
    decreases |words| - i
  {
    hide Greedy, Take;
    if i < j {
      var here := words[i..];
      TakeIsMaximal(here, max, 0);
      var p := i + Take(here, max);
      TakeIsMaximal(here, max, Take(here, max));
      assert p <= |words| && words[p..] == here[Take(here, max)..];
      if p <= j {
        GreedyIsMonotone(words, p, j, max);
      } else {
        var there := words[j..];
        assert there == here[j - i..];
        RoomOfSuffix(here, j - i, p - i);
        TakeIsMaximal(there, max, p - j);
        var q := j + Take(there, max);
        TakeIsMaximal(there, max, Take(there, max));
        assert words[q..] == there[Take(there, max)..];
        GreedyIsMonotone(words, p, q, max);
      }
    }
  }

  // ----- no split of the words is shorter -----

  /** A line that fits, or that holds a single word too long for any line. */
  predicate Admissible(line: string, max: nat) {
    |line| <= max || |Words(line)| == 1
  }

  /** `lines` holds the words of `text`, in order, on admissible lines. */
  predicate Split(lines: seq<string>, text: string, max: nat) {
    AllWords(lines) == Words(text) && forall i :: 0 <= i < |lines| ==> Admissible(lines[i], max)
  }

  lemma {:induction false} GreedyIsMinimal(lines: seq<string>, max: nat)
    requires forall i :: 0 <= i < |lines| ==> Admissible(lines[i], max)
    ensures Greedy(AllWords(lines), max) <= |lines|
  {
    var words := AllWords(lines);
    if lines != [] {
      var (first, rest) := (Words(lines[0]), AllWords(lines[1..]));
      GreedyIsMinimal(lines[1..], max);
      if words != [] {
        LineHoldsItsWords(lines[0]);
        RoomOfPrefix(first, rest, |first|);
        hide Greedy, Take;
        TakeIsMaximal(words, max, |first|);
        TakeIsMaximal(words, max, Take(words, max));
        GreedyIsMonotone(words, |first|, Take(words, max), max);
        assert words[|first|..] == rest;
      }
    }
  }

  lemma FewestLines(lines: seq<string>, text: string, max: nat)
    requires Split(lines, text, max)
    ensures Greedy(Words(text), max) <= |lines|
  {
    GreedyIsMinimal(lines, max);
  }

  /** The words of the line with single spaces between them, and nothing else. */
  predicate IsPlain(line: string) {
    line == Join(Words(line))
  }

  predicate Blank(text: string) {
    Words(text) == []
  }

  function LineCount(text: string, max: nat): nat {
    if |text| <= max then 1 else Greedy(Words(text), max)
  }

  /**
   Greedy wrapping uses as few lines as any split can, except for a blank text that fits: that one still takes a
   line.
   */
  lemma NoSplitIsShorter(text: string, max: nat)
    ensures (forall other :: Split(other, text, max) ==> LineCount(text, max) <= |other|)
      <==> !(Blank(text) && |text| <= max)
  {
    forall other | Split(other, text, max)
      ensures Greedy(Words(text), max) <= |other|
    {
      FewestLines(other, text, max);
    }
    if Blank(text) && |text| <= max {
      assert Split([], text, max);
    }
    if |text| <= max {
      forall other | Split(other, text, max) && !Blank(text)
        ensures |other| >= 1
      {
        assert other != [] by {
          assert AllWords([]) == [];
        }
      }
    }
  }

  // ----- the wrapper -----

  /** After `k` words: the finished lines, the words on the open line, and the lines still to come. */
  ghost predicate Wrapping(words: seq<string>, k: nat, lines: seq<string>, open: seq<string>, current: string,
      max: nat)
  {
    && k <= |words|
    && (forall i :: 0 <= i < |open| ==> IsWord(open[i]))
    && current == Join(open) && (open == [] <==> current == [])
    && (open == [] ==> k == 0 && lines == [])
    && AllWords(lines) + open == words[..k]
    && (forall i :: 0 <= i < |lines| ==> Admissible(lines[i], max) && IsPlain(lines[i]))
    && (|open| > 1 ==> |current| <= max)
    && Greedy(words, max) == |lines| + if open == [] then Greedy(words[k..], max)
      else GreedyFrom(|current|, words[k..], max)
  }

  lemma JoinOne(word: string, open: seq<string>)
    ensures Join([word]) == word
    ensures open != [] ==> Join(open + [word]) == Join(open) + " " + word
  {
    assert (open + [word])[..|open|] == open;
  }

  lemma CloseLine(lines: seq<string>, open: seq<string>, current: string, max: nat)
    requires (forall i :: 0 <= i < |open| ==> IsWord(open[i])) && current == Join(open) && open != []
    requires |open| > 1 ==> |current| <= max
    ensures AllWords(lines + [current]) == AllWords(lines) + open && Admissible(current, max) && IsPlain(current)
  {
    AllWordsAppend(lines, current);
    WordsOfJoin(open);
  }

  lemma StartKeeps(words: seq<string>, k: nat, max: nat)
    requires k < |words| && Wrapping(words, k, [], [], [], max) && IsWord(words[k])
    ensures Wrapping(words, k + 1, [], [words[k]], words[k], max)
  {
    JoinOne(words[k], []);
    assert words[0..] == words;
    hide Words, Extend;
  }

  lemma FullLine(len: nat, rest: seq<string>, max: nat)
    requires rest != [] ==> len + 1 + |rest[0]| > max
    ensures GreedyFrom(len, rest, max) == 1 + if rest == [] then 0 else GreedyFrom(|rest[0]|, rest[1..], max)
  {
    assert rest[Extend(len, rest, max)..] == rest;
  }

  lemma CloseKeeps(words: seq<string>, k: nat, lines: seq<string>, open: seq<string>, current: string, max: nat)
    requires k < |words| && Wrapping(words, k, lines, open, current, max) && IsWord(words[k])
    requires current != [] && |current| + 1 + |words[k]| > max
    ensures Wrapping(words, k + 1, lines + [current], [words[k]], words[k], max)
  {
    CloseLine(lines, open, current, max);
    JoinOne(words[k], []);
    var rest := words[k..];
    assert rest[0] == words[k] && rest[1..] == words[k + 1..] && words[..k + 1] == words[..k] + [words[k]];
    FullLine(|current|, rest, max);
    assert AllWords(lines + [current]) + [words[k]] == words[..k + 1];
    hide Words, AllWords, Join, Extend, Admissible, IsPlain, Greedy, GreedyFrom;
  }

  lemma GrowLine(len: nat, rest: seq<string>, max: nat)
    requires rest != [] && len + 1 + |rest[0]| <= max
    ensures GreedyFrom(len, rest, max) == GreedyFrom(len + 1 + |rest[0]|, rest[1..], max)
  {
    var n := Extend(len + 1 + |rest[0]|, rest[1..], max);
    assert Extend(len, rest, max) == 1 + n && rest[1..][n..] == rest[1 + n..];
  }

  lemma GrowKeeps(words: seq<string>, k: nat, lines: seq<string>, open: seq<string>, current: string, max: nat)
    requires k < |words| && Wrapping(words, k, lines, open, current, max) && IsWord(words[k])
    requires current != [] && |current| + 1 + |words[k]| <= max
    ensures Wrapping(words, k + 1, lines, open + [words[k]], current + " " + words[k], max)
  {
    JoinOne(words[k], open);
    var rest := words[k..];
    assert rest[0] == words[k] && rest[1..] == words[k + 1..] && words[..k + 1] == words[..k] + [words[k]];
    GrowLine(|current|, rest, max);
    assert AllWords(lines) + (open + [words[k]]) == words[..k + 1];
    hide Words, AllWords, Join, Extend, Admissible, IsPlain, Greedy, GreedyFrom;
  }

  lemma WrapStart(text: string, max: nat)
    ensures Wrapping(Words(text), 0, [], [], [], max)
  {
    assert Words(text)[0..] == Words(text);
  }

  lemma WrapEnd(words: seq<string>, lines: seq<string>, open: seq<string>, current: string, max: nat)
    requires Wrapping(words, |words|, lines, open, current, max)
    ensures
      var all := if current == [] then lines else lines + [current];
      && AllWords(all) == words && |all| == Greedy(words, max)
      && forall i :: 0 <= i < |all| ==> Admissible(all[i], max) && IsPlain(all[i])
  {
    assert words[..|words|] == words && words[|words|..] == [];
    if current != [] {
      CloseLine(lines, open, current, max);
      FullLine(|current|, [], max);
    }
    hide Words, AllWords, Join, Admissible, IsPlain;
  }

  /**
   A text that fits is returned as it is; any other is wrapped greedily. The words are kept, in order, on
   admissible lines, and no split is shorter but for a blank text that fits.
   */
  method WrapText(text: string, max: nat) returns (lines: seq<string>)
    ensures Split(lines, text, max)
    ensures |text| <= max ==> lines == [text]
    ensures |text| > max ==> forall i :: 0 <= i < |lines| ==> IsPlain(lines[i])
    ensures |lines| == LineCount(text, max)
    ensures (forall other :: Split(other, text, max) ==> |lines| <= |other|) <==> !(Blank(text) && |text| <= max)
  {
    NoSplitIsShorter(text, max);
    if |text| <= max {
      assert AllWords([text]) == Words(text) + AllWords([]);
      return [text];
    }
    lines := [];
    var current := "";
    var words := Words(text);
    ghost var open: seq<string> := [];
    WordsAreWords(text);
    WrapStart(text, max);
    for k := 0 to |words|
      invariant Wrapping(words, k, lines, open, current, max)
      invariant current == [] ==> lines == [] && open == []
    {
      hide *;
      var word := words[k];
      var nextLen := if current == [] then |word| else |current| + 1 + |word|;
      if nextLen > max && current != [] {
        CloseKeeps(words, k, lines, open, current, max);
        lines := lines + [current];
        current, open := word, [word];
      } else if current == [] {
        StartKeeps(words, k, max);
        current, open := word, [word];
      } else {
        GrowKeeps(words, k, lines, open, current, max);
        current, open := current + " " + word, open + [word];
      }
      NotEmpty(words, k + 1, lines, open, current, max);
    }
    WrapEnd(words, lines, open, current, max);
    if current != [] {
      lines := lines + [current];
    }
  }

  lemma NotEmpty(words: seq<string>, k: nat, lines: seq<string>, open: seq<string>, current: string, max: nat)
    requires Wrapping(words, k, lines, open, current, max) && k > 0
    ensures current != []
  {
  }
}
