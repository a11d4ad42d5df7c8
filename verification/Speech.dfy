/** What a conversation says, and when a list of texts says all of it: every word of every message, in order,
    each in one text of the right speaker. */
module Speech {
  import opened Text

  // ----- words in one text -----

  /** The words occur in the text, one behind the other. */
  ghost predicate InOrder(words: seq<string>, text: string)
  {
    words == [] ||
    (var n := |words| - 1; exists k :: Occurs(text, words[n], k) && InOrder(words[..n], text[..k]))
  }

  lemma InOrderSnoc(words: seq<string>, text: string, word: string, k: nat)
    requires Occurs(text, word, k) && InOrder(words, text[..k])
    ensures InOrder(words + [word], text)
  {
    var all := words + [word];
    assert all[..|all| - 1] == words && all[|all| - 1] == word;
  }

  lemma Shifted(front: string, text: string, tail: string, word: string, k: nat)
    requires Occurs(text, word, k)
    ensures Occurs(front + text, word, |front| + k) && (front + text)[..|front| + k] == front + text[..k]
    ensures Occurs(text + tail, word, k) && (text + tail)[..k] == text[..k]
  {
    assert (front + text)[|front| + k..|front| + k + |word|] == word;
    assert (text + tail)[k..k + |word|] == word;
  }

  /** Where the last word stands. */
  lemma InOrderTake(front: seq<string>, word: string, text: string) returns (k: nat)
    requires InOrder(front + [word], text)
    ensures Occurs(text, word, k) && InOrder(front, text[..k])
  {
    var words := front + [word];
    assert words[..|front|] == front && words[|front|] == word;
    k :| Occurs(text, word, k) && InOrder(front, text[..k]);
  }

  lemma InOrderBefore(words: seq<string>, text: string, tail: string)
    requires InOrder(words, text)
    ensures InOrder(words, text + tail)
  {
    if words != [] {
      var front, word := words[..|words| - 1], words[|words| - 1];
      assert words == front + [word];
      var k := InOrderTake(front, word, text);
      Shifted("", text, tail, word, k);
      InOrderSnoc(front, text + tail, word, k);
    }
  }

  lemma JoinStep(words: seq<string>, s: string, t: string, word: string, k: nat)
    requires Occurs(t, word, k) && InOrder(words, s + t[..k])
    ensures InOrder(words + [word], s + t)
  {
    Shifted(s, t, "", word, k);
    InOrderSnoc(words, s + t, word, |s| + k);
  }

  lemma {:induction false} InOrderJoin(a: seq<string>, s: string, b: seq<string>, t: string)
    requires InOrder(a, s) && InOrder(b, t)
    ensures InOrder(a + b, s + t)
    decreases |b|
  {
    if b == [] {
      Associate(a, [], []);
      InOrderBefore(a, s, t);
    } else {
      var front, word := b[..|b| - 1], b[|b| - 1];
      assert b == front + [word];
      var k := InOrderTake(front, word, t);
      InOrderJoin(a, s, front, t[..k]);
      JoinStep(a + front, s, t, word, k);
      Associate(a, front, [word]);
    }
  }

  lemma InOrderBehind(words: seq<string>, front: string, text: string)
    requires InOrder(words, text)
    ensures InOrder(words, front + text)
  {
    InOrderJoin([], front, words, text);
    assert [] + words == words;
  }

  /** A text as a word of its own, if it is not empty. */
  function Word(text: string): seq<string> { if text == "" then [] else [text] }

  lemma WordIs(text: string)
    ensures InOrder(Word(text), text)
  {
    if text != "" {
      assert Occurs(text, text, 0) && Word(text)[..0] == [];
    }
  }

  // ----- lines of two speakers -----

  datatype Line = Line(assistant: bool, text: string)

  datatype Said = Said(assistant: bool, word: string)

  function By(assistant: bool, words: seq<string>): (r: seq<Said>)
    ensures |r| == |words| && forall i :: 0 <= i < |r| ==> r[i] == Said(assistant, words[i])
  {
    seq(|words|, i requires 0 <= i < |words| => Said(assistant, words[i]))
  }

  /** The line's speaker says these words in it. */
  ghost predicate HoldsWords(line: Line, said: seq<Said>, words: seq<string>)
  {
    said == By(line.assistant, words) && InOrder(words, line.text)
  }

  ghost predicate Holds(line: Line, said: seq<Said>) { exists words :: HoldsWords(line, said, words) }

  /** The last line says the words from `n` on, the lines before it those before. */
  ghost predicate TellsFrom(lines: seq<Line>, said: seq<Said>, n: nat)
    requires lines != []
    decreases |lines|, 0
  {
    n <= |said| && Tells(lines[..|lines| - 1], said[..n]) && Holds(lines[|lines| - 1], said[n..])
  }

  /** Each of the lines says the next of the words, and together they say all. */
  ghost predicate Tells(lines: seq<Line>, said: seq<Said>)
    decreases |lines|, 1
  {
    if lines == [] then said == [] else exists n: nat :: TellsFrom(lines, said, n)
  }

  lemma TellsSnoc(lines: seq<Line>, said: seq<Said>, line: Line, more: seq<Said>)
    requires Tells(lines, said) && Holds(line, more)
    ensures Tells(lines + [line], said + more)
  {
    var n, all := |said|, said + more;
    assert (lines + [line])[..|lines|] == lines && all[..n] == said && all[n..] == more;
    assert TellsFrom(lines + [line], all, n);
  }

  /** What the lines but the last say, and what the last one says. */
  lemma TellsLast(lines: seq<Line>, line: Line, said: seq<Said>) returns (before: seq<Said>, now: seq<Said>)
    requires Tells(lines + [line], said)
    ensures said == before + now && Tells(lines, before) && Holds(line, now)
  {
    var all := lines + [line];
    var n: nat :| TellsFrom(all, said, n);
    assert all[..|all| - 1] == lines && all[|all| - 1] == line;
    before, now := said[..n], said[n..];
  }

  lemma HoldsNothing(line: Line)
    ensures Holds(line, [])
  {
    assert HoldsWords(line, [], []);
  }

  lemma TellsFiller(lines: seq<Line>, said: seq<Said>, line: Line)
    requires Tells(lines, said)
    ensures Tells(lines + [line], said)
  {
    HoldsNothing(line);
    TellsSnoc(lines, said, line, []);
    assert said + [] == said;
  }

  /** `b` is `a` with `front` before it and `tail` behind it. */
  predicate Wraps(a: Line, b: Line, front: string, tail: string)
  {
    b.assistant == a.assistant && b.text == front + (a.text + tail)
  }

  ghost predicate Within(a: Line, b: Line) { exists front, tail :: Wraps(a, b, front, tail) }

  lemma HoldsWithin(a: Line, b: Line, said: seq<Said>)
    requires Within(a, b) && Holds(a, said)
    ensures Holds(b, said)
  {
    var front, tail :| Wraps(a, b, front, tail);
    var words :| HoldsWords(a, said, words);
    InOrderBefore(words, a.text, tail);
    InOrderBehind(words, front, a.text + tail);
    assert HoldsWords(b, said, words);
  }

  lemma ByAppend(assistant: bool, u: seq<string>, v: seq<string>)
    ensures By(assistant, u + v) == By(assistant, u) + By(assistant, v)
  {
  }

  lemma HoldsBoth(a: Line, x: seq<Said>, gap: string, text: string, y: seq<Said>)
    requires Holds(a, x) && Holds(Line(a.assistant, text), y)
    ensures Holds(Line(a.assistant, a.text + (gap + text)), x + y)
  {
    var u :| HoldsWords(a, x, u);
    var v :| HoldsWords(Line(a.assistant, text), y, v);
    InOrderBehind(v, gap, text);
    InOrderJoin(u, a.text, v, gap + text);
    ByAppend(a.assistant, u, v);
    assert HoldsWords(Line(a.assistant, a.text + (gap + text)), x + y, u + v);
  }

  /** The last line goes on with another message of the same speaker. */
  lemma TellsMerged(lines: seq<Line>, said: seq<Said>, last: Line, gap: string, text: string, more: seq<Said>)
    requires Tells(lines + [last], said) && Holds(Line(last.assistant, text), more)
    ensures Tells(lines + [Line(last.assistant, last.text + (gap + text))], said + more)
  {
    var before, now := TellsLast(lines, last, said);
    HoldsBoth(last, now, gap, text, more);
    TellsSnoc(lines, before, Line(last.assistant, last.text + (gap + text)), now + more);
    Associate(before, now, more);
  }

  /** Each line of `b` holds the one of `a` that it replaces. */
  ghost predicate AllWithin(a: seq<Line>, b: seq<Line>)
  {
    |a| == |b| && forall i :: 0 <= i < |a| ==> Within(a[i], b[i])
  }

  lemma {:induction false} TellsWithin(a: seq<Line>, b: seq<Line>, said: seq<Said>)
    requires AllWithin(a, b) && Tells(a, said)
    ensures Tells(b, said)
    decreases |a|
  {
    if a != [] {
      var x, y, p, q := a[..|a| - 1], b[..|b| - 1], a[|a| - 1], b[|b| - 1];
      assert a == x + [p] && b == y + [q];
      var before, now := TellsLast(x, p, said);
      TellsWithin(x, y, before);
      HoldsWithin(p, q, now);
      TellsSnoc(y, before, q, now);
    }
  }

  /** A line in front that says nothing new. */
  lemma {:induction false} TellsBehind(line: Line, lines: seq<Line>, said: seq<Said>)
    requires Tells(lines, said)
    ensures Tells([line] + lines, said)
    decreases |lines|
  {
    if lines == [] {
      TellsFiller([], [], line);
      assert [line] + lines == [] + [line];
    } else {
      var front, last := lines[..|lines| - 1], lines[|lines| - 1];
      assert lines == front + [last];
      var before, now := TellsLast(front, last, said);
      TellsBehind(line, front, before);
      TellsSnoc([line] + front, before, last, now);
      Associate([line], front, [last]);
    }
  }

  lemma WithinWrapped(a: Line, b: Line, front: string, tail: string)
    requires b.assistant == a.assistant && b.text == front + (a.text + tail)
    ensures Within(a, b)
  {
    assert Wraps(a, b, front, tail);
  }

  lemma WithinSame(a: Line)
    ensures Within(a, a)
  {
    WithinWrapped(a, a, "", "");
  }

  lemma EmptyWithin(a: Line, b: Line)
    requires a.assistant == b.assistant && a.text == ""
    ensures Within(a, b)
  {
    WithinWrapped(a, b, "", b.text);
  }
}
