/** How exports print names and quoted values: file names, slugs, and escaped
    string literals. */
module Names {
  import opened Common
  import opened Text

  /** What the regular expressions `\w` and `\s`, and lower-casing, do to one character. */
  datatype Alphabet = Alphabet(word: char -> bool, space: char -> bool, lower: char -> char)

  ghost predicate Consistent(a: Alphabet) {
    && (forall c :: !(a.word(c) && a.space(c)))
    && (forall c :: a.lower(a.lower(c)) == a.lower(c))
    && a.word('_') && a.lower('_') == '_'
    && !a.word('-') && !a.space('-')
    && (forall c :: c in "test_script" ==> a.word(c) && a.lower(c) == c)
  }

  const ASCII := Alphabet(
    c => 'a' <= c <= 'z' || 'A' <= c <= 'Z' || '0' <= c <= '9' || c == '_',
    c => 9 as char <= c <= 13 as char || 28 as char <= c <= 32 as char,
    c => if 'A' <= c <= 'Z' then c + 32 as char else c)

  lemma AsciiIsConsistent()
    ensures Consistent(ASCII)
  {
  }

  // ---------------------------------------------------------------------
  // Separators
  // ---------------------------------------------------------------------

  function DropRun(s: string, sep: char -> bool): (r: string)
    ensures |r| <= |s|
    ensures r == "" || !sep(r[0])
    ensures s != "" && sep(s[0]) ==> |r| < |s|
  {
    if s == "" || !sep(s[0]) then s else DropRun(s[1..], sep)
  }

  /** Every maximal run of separators becomes one underscore. */
  function Collapse(s: string, sep: char -> bool): string
    decreases |s|
  {
    if s == "" then ""
    else if sep(s[0]) then "_" + Collapse(DropRun(s, sep), sep)
    else [s[0]] + Collapse(s[1..], sep)
  }

  function StripLeft(s: string): string {
    if s == "" || s[0] != '_' then s else StripLeft(s[1..])
  }

  function StripRight(s: string): string {
    if s == "" || s[|s| - 1] != '_' then s else StripRight(s[..|s| - 1])
  }

  function Strip(s: string): string {
    StripRight(StripLeft(s))
  }

  /** The maximal stretches without a separator, in order. */
  function Words(s: string, sep: char -> bool): (r: seq<string>)
    ensures s != "" && !sep(s[0]) ==> r != []
    ensures forall i :: 0 <= i < |r| ==> r[i] != "" && forall c :: c in r[i] ==> c in s && !sep(c)
  {
    if s == "" then []
    else
      var rest := Words(s[1..], sep);
      if sep(s[0]) then rest
      else if |s| == 1 || sep(s[1]) then [[s[0]]] + rest
      else [[s[0]] + rest[0]] + rest[1..]
  }

  function Join(words: seq<string>): string {
    if words == [] then ""
    else if |words| == 1 then words[0]
    else words[0] + "_" + Join(words[1..])
  }

  predicate Leads(s: string, sep: char -> bool) {
    s != "" && sep(s[0])
  }

  predicate Trails(s: string, sep: char -> bool) {
    s != "" && sep(s[|s| - 1])
  }

  lemma NoWordsInNothing(sep: char -> bool)
    ensures Words("", sep) == []
  {
  }

  lemma {:induction false} WordsOfRun(w: string, sep: char -> bool)
    requires w != "" && forall c :: c in w ==> !sep(c)
    ensures Words(w, sep) == [w]
  {
    assert w == [w[0]] + w[1..];
    if |w| > 1 {
      WordsOfRun(w[1..], sep);
      assert w[1] in w;
    } else {
      assert w[1..] == "" && w == [w[0]];
      NoWordsInNothing(sep);
      assert Words(w, sep) == [[w[0]]];
    }
  }

  lemma WordsAfterSeparator(s: string, sep: char -> bool)
    requires s != "" && sep(s[0])
    ensures Words(s, sep) == Words(s[1..], sep)
  {
  }

  lemma WordsOfMore(s: string, sep: char -> bool)
    requires s != "" && !sep(s[0])
    ensures Words(s, sep) != []
  {
  }

  lemma WordsAfterChar(s: string, sep: char -> bool)
    requires s != "" && !sep(s[0])
    ensures var rest := Words(s[1..], sep);
      Words(s, sep) == if |s| == 1 || sep(s[1]) then [[s[0]]] + rest else [[s[0]] + rest[0]] + rest[1..]
  {
  }

  lemma MoreWords(h: string, a: seq<string>, b: seq<string>)
    ensures [h] + (a + b) == [h] + a + b
  {
  }

  lemma LongerFirst(c: char, a: seq<string>, b: seq<string>)
    requires a != []
    ensures [[c] + (a + b)[0]] + (a + b)[1..] == [[c] + a[0]] + a[1..] + b
  {
    assert (a + b)[1..] == a[1..] + b;
    MoreWords([c] + a[0], a[1..], b);
  }

  lemma {:induction false} WordsGrow(x: string, s: string, after: seq<string>, sep: char -> bool)
    requires x != "" && !sep(x[0]) && |s| > 1 && s[0] == x[0] && (if |x| > 1 then s[1] == x[1] else sep(s[1]))
    requires Words(s[1..], sep) == Words(x[1..], sep) + after
    ensures Words(s, sep) == Words(x, sep) + after
  {
    hide Words;
    WordsAfterChar(s, sep);
    WordsAfterChar(x, sep);
    var rest := Words(x[1..], sep);
    if |x| == 1 || sep(x[1]) {
      MoreWords([x[0]], rest, after);
    } else {
      WordsOfMore(x[1..], sep);
      LongerFirst(x[0], rest, after);
    }
  }

  /** A separator ends one word and lets the next begin. */
  lemma {:induction false} WordsSplit(x: string, c: char, y: string, sep: char -> bool)
    requires sep(c)
    ensures Words(x + [c] + y, sep) == Words(x, sep) + Words(y, sep)
  {
    hide Words;
    var s := x + [c] + y;
    if x == "" {
      assert s[0] == c && s[1..] == y;
      NoWordsInNothing(sep);
      WordsAfterSeparator(s, sep);
      assert [] + Words(y, sep) == Words(y, sep);
    } else {
      WordsSplit(x[1..], c, y, sep);
      assert s[0] == x[0] && s[1..] == x[1..] + [c] + y;
      if sep(x[0]) {
        WordsAfterSeparator(s, sep);
        WordsAfterSeparator(x, sep);
      } else {
        WordsGrow(x, s, Words(y, sep), sep);
      }
    }
  }

  function Mark(b: bool): string {
    if b then "_" else ""
  }

  lemma {:induction false} DropRunWords(s: string, sep: char -> bool)
    ensures Words(DropRun(s, sep), sep) == Words(s, sep)
    ensures DropRun(s, sep) != "" ==> Trails(DropRun(s, sep), sep) == Trails(s, sep)
  {
    if s != "" && sep(s[0]) {
      DropRunWords(s[1..], sep);
    }
  }

  lemma {:induction false} NoWordsTrails(s: string, sep: char -> bool)
    requires s != "" && Words(s, sep) == []
    ensures Trails(s, sep)
  {
    if |s| > 1 {
      NoWordsTrails(s[1..], sep);
    }
  }

  lemma JoinLonger(c: char, words: seq<string>)
    requires words != []
    ensures Join([[c] + words[0]] + words[1..]) == [c] + Join(words)
  {
    var longer := [[c] + words[0]] + words[1..];
    assert longer[1..] == words[1..];
    if |words| > 1 {
      assert [c] + words[0] + "_" + Join(words[1..]) == [c] + (words[0] + "_" + Join(words[1..]));
    }
  }

  lemma JoinOneMore(c: char, words: seq<string>)
    requires words != []
    ensures Join([[c]] + words) == [c] + ("_" + Join(words))
  {
    assert ([[c]] + words)[1..] == words;
  }

  /** The words, joined, with a mark for a run of separators at either end. */
  function Marked(s: string, sep: char -> bool): string {
    if Words(s, sep) == [] then Mark(s != "")
    else Mark(Leads(s, sep)) + Join(Words(s, sep)) + Mark(Trails(s, sep))
  }

  lemma {:induction false} MarkedAfterRun(s: string, sep: char -> bool)
    requires Leads(s, sep)
    ensures Marked(s, sep) == "_" + Marked(DropRun(s, sep), sep)
  {
    hide Words;
    hide Join;
    var rest := DropRun(s, sep);
    DropRunWords(s, sep);
    if Words(s, sep) != [] {
      assert rest != "" by {
        if rest == "" {
          NoWordsInNothing(sep);
        }
      }
      var j, m := Join(Words(rest, sep)), Mark(Trails(rest, sep));
      assert "_" + ("" + j + m) == "_" + j + m;
    }
  }

  lemma TrailsAfter(s: string, sep: char -> bool)
    requires |s| > 1
    ensures Trails(s, sep) == Trails(s[1..], sep) && Leads(s[1..], sep) == sep(s[1])
  {
  }

  lemma Regroup(c: char, lead: string, j: string, m: string)
    ensures [c] + (lead + j + m) == [c] + (lead + j) + m
    ensures "" + ([c] + (lead + j)) + m == [c] + (lead + j) + m
    ensures "" + j == j
  {
  }

  lemma JoinOne(w: string)
    ensures Join([w]) == w
  {
  }

  lemma {:induction false} MarkedAfterChar(s: string, sep: char -> bool)
    requires s != "" && !sep(s[0])
    ensures Marked(s, sep) == [s[0]] + Marked(s[1..], sep)
  {
    hide Join;
    hide Words;
    WordsAfterChar(s, sep);
    if |s| == 1 {
      NoWordsInNothing(sep);
      assert s[1..] == "" && Words(s, sep) == [[s[0]]];
      JoinOne([s[0]]);
    } else if Words(s[1..], sep) == [] {
      NoWordsTrails(s[1..], sep);
      JoinOne([s[0]]);
      assert Words(s, sep) == [[s[0]]];
    } else {
      TrailsAfter(s, sep);
      if sep(s[1]) {
        JoinOneMore(s[0], Words(s[1..], sep));
        Regroup(s[0], "_", Join(Words(s[1..], sep)), Mark(Trails(s, sep)));
      } else {
        JoinLonger(s[0], Words(s[1..], sep));
        Regroup(s[0], "", Join(Words(s[1..], sep)), Mark(Trails(s, sep)));
      }
    }
  }

  lemma MarkedNothing(sep: char -> bool)
    ensures Marked("", sep) == ""
  {
  }

  /** Collapsing leaves the words, joined, with a mark for a run at either end. */
  lemma {:induction false} CollapseJoins(s: string, sep: char -> bool)
    ensures Collapse(s, sep) == Marked(s, sep)
    decreases |s|
  {
    hide Marked;
    if s == "" {
      MarkedNothing(sep);
    } else if sep(s[0]) {
      MarkedAfterRun(s, sep);
      CollapseJoins(DropRun(s, sep), sep);
    } else {
      MarkedAfterChar(s, sep);
      CollapseJoins(s[1..], sep);
    }
  }

  lemma {:induction false} JoinEnds(words: seq<string>)
    requires words != [] && forall i :: 0 <= i < |words| ==> words[i] != "" && '_' !in words[i]
    ensures var j := Join(words); j != "" && j[0] != '_' && j[|j| - 1] != '_'
  {
    if |words| > 1 {
      JoinEnds(words[1..]);
      assert words[0][0] in words[0];
    }
  }

  lemma StripMarks(j: string, lead: bool, trail: bool)
    requires j != "" && j[0] != '_' && j[|j| - 1] != '_'
    ensures Strip(Mark(lead) + j + Mark(trail)) == j
  {
    var t := j + Mark(trail);
    assert Mark(lead) + j + Mark(trail) == Mark(lead) + t;
    assert StripLeft(t) == t;
    assert lead ==> ("_" + t)[1..] == t;
    assert "" + t == t;
    assert StripRight(j) == j;
    assert trail ==> t[..|t| - 1] == j;
    assert !trail ==> t == j;
  }

  /** Collapsing the separators of a text and stripping the ends joins its words
      with single underscores, when no word holds one. */
  lemma CollapsedText(s: string, sep: char -> bool)
    requires sep('_')
    ensures Strip(Collapse(s, sep)) == Join(Words(s, sep))
  {
    if s != "" {
      CollapseJoins(s, sep);
      var words := Words(s, sep);
      if words == [] {
        assert Strip("_") == "";
      } else {
        JoinEnds(words);
        StripMarks(Join(words), Leads(s, sep), Trails(s, sep));
      }
    }
  }

  // ---------------------------------------------------------------------
  // What survives
  // ---------------------------------------------------------------------

  /** The word characters other than the underscore. */
  function Letter(a: Alphabet): char -> bool {
    c => a.word(c) && c != '_'
  }

  lemma FilterHead(c: char, rest: string, p: char -> bool)
    ensures Filter([c] + rest, p) == if p(c) then [c] + Filter(rest, p) else Filter(rest, p)
  {
    FilterAppend([c], rest, p);
    assert [c][..0] == [];
  }

  lemma FilterLast(rest: string, c: char, p: char -> bool)
    ensures Filter(rest + [c], p) == Filter(rest, p) + if p(c) then [c] else []
  {
    FilterAppend(rest, [c], p);
    assert [c][..0] == [];
  }

  lemma {:induction false} FilterTwice(s: string, p: char -> bool, q: char -> bool)
    requires forall c :: q(c) ==> p(c)
    ensures Filter(Filter(s, p), q) == Filter(s, q)
  {
    if s != "" {
      var last := |s| - 1;
      FilterTwice(s[..last], p, q);
      if p(s[last]) {
        FilterLast(Filter(s[..last], p), s[last], q);
      }
    }
  }

  lemma {:induction false} DropRunKeeps(s: string, sep: char -> bool, p: char -> bool)
    requires forall c :: p(c) ==> !sep(c)
    ensures Filter(DropRun(s, sep), p) == Filter(s, p)
  {
    if s != "" && sep(s[0]) {
      DropRunKeeps(s[1..], sep, p);
      assert s == [s[0]] + s[1..];
      FilterHead(s[0], s[1..], p);
    }
  }

  lemma {:induction false} CollapseKeeps(s: string, sep: char -> bool, p: char -> bool)
    requires !p('_') && forall c :: p(c) ==> !sep(c)
    ensures Filter(Collapse(s, sep), p) == Filter(s, p)
    decreases |s|
  {
    hide Filter;
    if s != "" {
      if sep(s[0]) {
        DropRunKeeps(s, sep, p);
        CollapseKeeps(DropRun(s, sep), sep, p);
        FilterHead('_', Collapse(DropRun(s, sep), sep), p);
      } else {
        CollapseKeeps(s[1..], sep, p);
        assert s == [s[0]] + s[1..];
        FilterHead(s[0], s[1..], p);
        FilterHead(s[0], Collapse(s[1..], sep), p);
      }
    }
  }

  lemma {:induction false} StripLeftKeeps(s: string, p: char -> bool)
    requires !p('_')
    ensures Filter(StripLeft(s), p) == Filter(s, p)
  {
    if s != "" && s[0] == '_' {
      StripLeftKeeps(s[1..], p);
      assert s == [s[0]] + s[1..];
      FilterHead('_', s[1..], p);
    }
  }

  lemma {:induction false} StripRightKeeps(s: string, p: char -> bool)
    requires !p('_')
    ensures Filter(StripRight(s), p) == Filter(s, p)
  {
    if s != "" && s[|s| - 1] == '_' {
      StripRightKeeps(s[..|s| - 1], p);
    }
  }

  /** Collapsing and stripping lose no letter, add none, and keep their order. */
  lemma PrintKeepsLetters(s: string, p: char -> bool, sep: char -> bool, letter: char -> bool)
    requires !letter('_') && forall c :: letter(c) ==> p(c) && !sep(c)
    ensures Filter(Strip(Collapse(Filter(s, p), sep)), letter) == Filter(s, letter)
  {
    var kept := Filter(s, p);
    StripRightKeeps(StripLeft(Collapse(kept, sep)), letter);
    StripLeftKeeps(Collapse(kept, sep), letter);
    CollapseKeeps(kept, sep, letter);
    FilterTwice(s, p, letter);
  }

  // ---------------------------------------------------------------------
  // File names
  // ---------------------------------------------------------------------

  const MAX_NAME := 80

  function Separates(a: Alphabet): char -> bool {
    c => a.space(c) || c == '_' || c == '-'
  }

  function NameChars(a: Alphabet, title: string): string {
    Filter(title, c => a.word(c) || a.space(c) || c == '-')
  }

  function Cleaned(a: Alphabet, title: string): string {
    Strip(Collapse(NameChars(a, title), Separates(a)))
  }

  function SafeName(a: Alphabet, title: string): string {
    var cleaned := Cleaned(a, title);
    var cut := if |cleaned| <= MAX_NAME then cleaned else cleaned[..MAX_NAME];
    if cut == "" then "test_script" else cut
  }

  ghost predicate NoDouble(s: string) {
    forall i :: 0 < i < |s| ==> !(s[i - 1] == '_' && s[i] == '_')
  }

  /** Word characters only, single underscores, none of them first. */
  ghost predicate Tidy(a: Alphabet, s: string) {
    (forall c :: c in s ==> a.word(c)) && NoDouble(s) && (s != "" ==> s[0] != '_')
  }

  lemma TidyConcat(a: Alphabet, w: string, j: string)
    requires a.word('_') && w != "" && (forall c :: c in w ==> a.word(c) && c != '_')
    requires Tidy(a, j) && j != ""
    ensures Tidy(a, w + "_" + j)
  {
    var s := w + "_" + j;
    assert forall i :: 0 <= i < |w| ==> s[i] == w[i] && w[i] in w;
    assert forall i :: 0 <= i < |j| ==> s[|w| + 1 + i] == j[i];
    forall i | 0 < i < |s|
      ensures !(s[i - 1] == '_' && s[i] == '_')
    {
      if i > |w| + 1 {
        assert s[i - 1] == j[i - 1 - |w| - 1] && s[i] == j[i - |w| - 1];
      }
    }
  }

  lemma {:induction false} JoinTidy(a: Alphabet, words: seq<string>)
    requires a.word('_')
    requires forall i :: 0 <= i < |words| ==> words[i] != "" && forall c :: c in words[i] ==> a.word(c) && c != '_'
    ensures Tidy(a, Join(words))
  {
    if |words| == 1 {
      forall i | 0 < i < |words[0]|
        ensures words[0][i] != '_'
      {
        assert words[0][i] in words[0];
      }
      assert words[0][0] in words[0];
    } else if |words| > 1 {
      JoinTidy(a, words[1..]);
      JoinEnds(words[1..]);
      TidyConcat(a, words[0], Join(words[1..]));
    }
  }

  lemma CleanedIsTidy(a: Alphabet, title: string)
    requires Consistent(a)
    ensures Tidy(a, Cleaned(a, title))
    ensures Cleaned(a, title) == Join(Words(NameChars(a, title), Separates(a)))
  {
    var words := Words(NameChars(a, title), Separates(a));
    CollapsedText(NameChars(a, title), Separates(a));
    forall i | 0 <= i < |words|
      ensures forall c :: c in words[i] ==> a.word(c) && c != '_'
    {
      assert forall c :: c in words[i] ==> c in NameChars(a, title) && !Separates(a)(c);
    }
    JoinTidy(a, words);
  }

  /** Up to the cut, a file name has exactly the letters of the title, in order. */
  lemma NameKeepsLetters(a: Alphabet, title: string)
    requires Consistent(a)
    ensures Filter(Cleaned(a, title), Letter(a)) == Filter(title, Letter(a))
  {
    PrintKeepsLetters(title, c => a.word(c) || a.space(c) || c == '-', Separates(a), Letter(a));
  }

  /** The words a file name is made of. */
  function NameWords(a: Alphabet, title: string): seq<string> {
    Words(NameChars(a, title), Separates(a))
  }

  /** Blanks, underscores and hyphens part words. */
  lemma {:induction false} NamePartsAtSeparator(a: Alphabet, x: string, c: char, y: string)
    requires a.space(c) || c in "_-"
    requires Consistent(a)
    ensures NameWords(a, x + [c] + y) == NameWords(a, x) + NameWords(a, y)
  {
    hide Words;
    hide Filter;
    var kept := d => a.word(d) || a.space(d) || d == '-';
    FilterAppend(x + [c], y, kept);
    FilterLast(x, c, kept);
    WordsSplit(NameChars(a, x), c, NameChars(a, y), Separates(a));
  }

  /** Any other character that is not a word character is as if it were not there. */
  lemma {:induction false} NameIgnores(a: Alphabet, x: string, c: char, y: string)
    requires !a.word(c) && !a.space(c) && c != '-'
    ensures NameWords(a, x + [c] + y) == NameWords(a, x + y)
  {
    hide Words;
    hide Filter;
    var kept := d => a.word(d) || a.space(d) || d == '-';
    FilterAppend(x + [c], y, kept);
    FilterLast(x, c, kept);
    FilterAppend(x, y, kept);
    assert NameChars(a, x) + [] == NameChars(a, x);
  }

  lemma {:induction false} FilterAll(s: string, p: char -> bool)
    requires forall c :: c in s ==> p(c)
    ensures Filter(s, p) == s
  {
    if s != "" {
      FilterAll(s[..|s| - 1], p);
      assert s == s[..|s| - 1] + [s[|s| - 1]];
    }
  }

  /** A run of word characters other than the underscore is one word. */
  lemma NameOfOneWord(a: Alphabet, w: string)
    requires Consistent(a) && forall c :: c in w ==> a.word(c) && c != '_'
    ensures NameWords(a, w) == if w == "" then [] else [w]
  {
    FilterAll(w, c => a.word(c) || a.space(c) || c == '-');
    if w != "" {
      WordsOfRun(w, Separates(a));
    }
  }

  /** A file name joins the words of the title by single underscores and is cut
      to 80 characters. */
  lemma NameJoinsWords(a: Alphabet, title: string)
    requires Consistent(a)
    ensures var joined := Join(NameWords(a, title));
      && (joined == "" ==> SafeName(a, title) == "test_script")
      && (1 <= |joined| <= 80 ==> SafeName(a, title) == joined)
      && (|joined| > 80 ==> SafeName(a, title) == joined[..80])
  {
    CleanedIsTidy(a, title);
  }

  lemma TidyPrefix(a: Alphabet, s: string, n: nat)
    requires Tidy(a, s) && n <= |s|
    ensures Tidy(a, s[..n])
  {
    assert forall c :: c in s[..n] ==> c in s;
  }

  /** A file name is the words of the title joined by single underscores, cut to
      80 characters: word characters only, no leading or doubled underscore. */
  lemma SafeNameIsTidy(a: Alphabet, title: string)
    requires Consistent(a)
    ensures var name := SafeName(a, title); 1 <= |name| <= MAX_NAME && Tidy(a, name)
    ensures var joined := Join(Words(NameChars(a, title), Separates(a)));
      SafeName(a, title) == if joined == "" then "test_script" else if |joined| <= MAX_NAME then joined else joined[..MAX_NAME]
  {
    CleanedIsTidy(a, title);
    if |Cleaned(a, title)| > MAX_NAME {
      TidyPrefix(a, Cleaned(a, title), MAX_NAME);
    }
  }

  /** Single underscores are all the separators there are: nothing to collapse. */
  lemma {:induction false} CollapseSame(s: string, sep: char -> bool)
    requires NoDouble(s) && forall c :: c in s && sep(c) ==> c == '_'
    ensures Collapse(s, sep) == s
  {
    if s != "" {
      assert NoDouble(s[1..]) by {
        forall i | 0 < i < |s[1..]|
          ensures !(s[1..][i - 1] == '_' && s[1..][i] == '_')
        {
          assert s[1..][i - 1] == s[i] && s[1..][i] == s[i + 1];
        }
      }
      CollapseSame(s[1..], sep);
      assert s == [s[0]] + s[1..];
      if sep(s[0]) && |s| > 1 {
        assert s[0] == '_' && s[1] != '_' && s[1] in s;
        assert DropRun(s, sep) == s[1..];
      }
    }
  }

  function WithoutLastMark(s: string): string {
    if s != "" && s[|s| - 1] == '_' then s[..|s| - 1] else s
  }

  lemma StripTidy(a: Alphabet, s: string)
    requires Tidy(a, s)
    ensures Strip(s) == WithoutLastMark(s)
  {
    if s != "" && s[|s| - 1] == '_' {
      var t := s[..|s| - 1];
      assert s[|s| - 2] != '_';
      assert StripRight(t) == t;
    }
  }

  lemma TidyAgain(a: Alphabet, s: string)
    requires Consistent(a) && Tidy(a, s) && 1 <= |s| <= MAX_NAME
    ensures SafeName(a, s) == WithoutLastMark(s) && SafeName(a, s) != ""
  {
    FilterAll(s, c => a.word(c) || a.space(c) || c == '-');
    CollapseSame(s, Separates(a));
    StripTidy(a, s);
  }

  lemma {:induction false} StripRightEnd(s: string)
    ensures StripRight(s) != "" ==> StripRight(s)[|StripRight(s)| - 1] != '_'
    ensures StripRight(s) <= s
  {
    if s != "" && s[|s| - 1] == '_' {
      StripRightEnd(s[..|s| - 1]);
    }
  }

  lemma CleanedEnd(a: Alphabet, title: string)
    requires Consistent(a)
    ensures var cleaned := Cleaned(a, title); cleaned != "" ==> cleaned[|cleaned| - 1] != '_'
  {
    StripRightEnd(StripLeft(Collapse(NameChars(a, title), Separates(a))));
  }

  /** The second application changes a file name exactly when the cut at 80
      characters left an underscore at its end, and the third never does. */
  lemma {:induction false} SafeNameSettles(a: Alphabet, title: string)
    requires Consistent(a)
    ensures var once := SafeName(a, title);
      && (SafeName(a, once) == once
          <==> !(|Cleaned(a, title)| > MAX_NAME && Cleaned(a, title)[MAX_NAME - 1] == '_'))
      && SafeName(a, SafeName(a, once)) == SafeName(a, once)
  {
    hide Cleaned;
    var once := SafeName(a, title);
    SafeNameIsTidy(a, title);
    TidyAgain(a, once);
    CleanedEnd(a, title);
    var twice := WithoutLastMark(once);
    TidyPrefix(a, once, |twice|);
    TidyAgain(a, twice);
    assert |once| > 1 ==> !(once[|once| - 2] == '_' && once[|once| - 1] == '_');
  }

  // ---------------------------------------------------------------------
  // Slugs
  // ---------------------------------------------------------------------

  function Lower(a: Alphabet, text: string): string {
    seq(|text|, i requires 0 <= i < |text| => a.lower(text[i]))
  }

  function SlugChars(a: Alphabet, text: string): string {
    Filter(Lower(a, text), c => a.word(c) || a.space(c))
  }

  function Slugify(a: Alphabet, text: string): string {
    var slug := Strip(Collapse(SlugChars(a, text), a.space));
    if slug == "" then "test" else slug
  }

  ghost predicate IsSlug(a: Alphabet, s: string) {
    && s != "" && s[0] != '_' && s[|s| - 1] != '_'
    && forall c :: c in s ==> a.word(c) && a.lower(c) == c
  }

  lemma {:induction false} DropRunSuffix(s: string, sep: char -> bool)
    ensures forall c :: c in DropRun(s, sep) ==> c in s
  {
    if s != "" && sep(s[0]) {
      DropRunSuffix(s[1..], sep);
    }
  }

  lemma {:induction false} CollapseChars(a: Alphabet, s: string)
    requires Consistent(a) && forall c :: c in s ==> (a.word(c) || a.space(c)) && a.lower(c) == c
    ensures forall c :: c in Collapse(s, a.space) ==> a.word(c) && a.lower(c) == c
    decreases |s|
  {
    if s != "" {
      if a.space(s[0]) {
        DropRunSuffix(s, a.space);
        CollapseChars(a, DropRun(s, a.space));
      } else {
        assert s[0] in s;
        CollapseChars(a, s[1..]);
      }
    }
  }

  lemma {:induction false} StripLeftStart(s: string)
    ensures var t := StripLeft(s); (t != "" ==> t[0] != '_') && forall c :: c in t ==> c in s
  {
    if s != "" && s[0] == '_' {
      StripLeftStart(s[1..]);
    }
  }

  lemma StripEnds(s: string)
    ensures var t := Strip(s); (t != "" ==> t[0] != '_' && t[|t| - 1] != '_') && forall c :: c in t ==> c in s
  {
    StripLeftStart(s);
    StripRightEnd(StripLeft(s));
    var t := Strip(s);
    assert t == StripLeft(s)[..|t|];
  }

  lemma SlugifyMakesSlugs(a: Alphabet, text: string)
    requires Consistent(a)
    ensures IsSlug(a, Slugify(a, text))
  {
    var chars := SlugChars(a, text);
    forall c | c in chars
      ensures a.lower(c) == c
    {
      assert c in Lower(a, text);
    }
    CollapseChars(a, chars);
    StripEnds(Collapse(chars, a.space));
    assert forall c :: c in "test" ==> c in "test_script";
  }

  /** A slug has exactly the letters of the lower-cased text, in order. */
  lemma SlugKeepsLetters(a: Alphabet, text: string)
    requires Consistent(a)
    ensures var letters := Filter(Lower(a, text), Letter(a));
      letters != [] ==> Filter(Slugify(a, text), Letter(a)) == letters
  {
    PrintKeepsLetters(Lower(a, text), c => a.word(c) || a.space(c), a.space, Letter(a));
  }

  /** The words a slug is made of: stretches without a blank. */
  function SlugWords(a: Alphabet, text: string): seq<string> {
    Words(SlugChars(a, text), a.space)
  }

  lemma LowerAppend(a: Alphabet, x: string, c: char, y: string)
    ensures Lower(a, x + [c] + y) == Lower(a, x) + [a.lower(c)] + Lower(a, y)
    ensures Lower(a, x + y) == Lower(a, x) + Lower(a, y)
  {
  }

  /** Blanks alone part the words of a slug. */
  lemma {:induction false} SlugPartsAtBlank(a: Alphabet, x: string, c: char, y: string)
    requires a.space(a.lower(c))
    ensures SlugWords(a, x + [c] + y) == SlugWords(a, x) + SlugWords(a, y)
  {
    hide Words;
    hide Filter;
    hide Lower;
    var kept := d => a.word(d) || a.space(d);
    LowerAppend(a, x, c, y);
    FilterAppend(Lower(a, x) + [a.lower(c)], Lower(a, y), kept);
    FilterLast(Lower(a, x), a.lower(c), kept);
    WordsSplit(SlugChars(a, x), a.lower(c), SlugChars(a, y), a.space);
  }

  lemma {:induction false} SlugIgnores(a: Alphabet, x: string, c: char, y: string)
    requires !a.word(a.lower(c)) && !a.space(a.lower(c))
    ensures SlugWords(a, x + [c] + y) == SlugWords(a, x + y)
  {
    hide Words;
    hide Filter;
    hide Lower;
    var kept := d => a.word(d) || a.space(d);
    LowerAppend(a, x, c, y);
    FilterAppend(Lower(a, x) + [a.lower(c)], Lower(a, y), kept);
    FilterLast(Lower(a, x), a.lower(c), kept);
    FilterAppend(Lower(a, x), Lower(a, y), kept);
    assert SlugChars(a, x) + [] == SlugChars(a, x);
  }

  /** A run of word characters is one word, in lower case. */
  lemma SlugOfOneWord(a: Alphabet, w: string)
    requires Consistent(a) && forall c :: c in w ==> a.word(a.lower(c))
    ensures w == "" ==> SlugWords(a, w) == []
    ensures w != "" ==> |SlugWords(a, w)| == 1 && |SlugWords(a, w)[0]| == |w|
                        && forall i :: 0 <= i < |w| ==> SlugWords(a, w)[0][i] == a.lower(w[i])
  {
    var lowered := Lower(a, w);
    assert forall i :: 0 <= i < |w| ==> w[i] in w;
    FilterAll(lowered, c => a.word(c) || a.space(c));
    if w != "" {
      WordsOfRun(lowered, a.space);
    }
  }

  lemma {:induction false} StripLeftMark(j: string)
    ensures StripLeft(j + "_") == if StripLeft(j) == "" then "" else StripLeft(j) + "_"
  {
    if j == "" {
      assert j + "_" == "_" && StripLeft("_"[1..]) == "";
    } else {
      assert (j + "_")[1..] == j[1..] + "_";
      if j[0] == '_' {
        StripLeftMark(j[1..]);
      }
    }
  }

  lemma StripMark(j: string)
    ensures Strip(j + "_") == Strip(j) && Strip("_" + j) == Strip(j)
  {
    StripLeftMark(j);
    assert ("_" + j)[1..] == j;
    if StripLeft(j) != "" {
      assert (StripLeft(j) + "_")[..|StripLeft(j)|] == StripLeft(j);
    }
  }

  lemma JoinNone()
    ensures Join([]) == "" && "_" + "" == "_"
  {
  }

  /** A slug joins the words of the text by single underscores, without the
      underscores at either end. */
  lemma {:induction false} SlugJoinsWords(a: Alphabet, text: string)
    ensures var joined := Strip(Join(SlugWords(a, text))); Slugify(a, text) == if joined == "" then "test" else joined
  {
    hide Words;
    hide Join;
    hide Strip;
    hide Collapse;
    var s := SlugChars(a, text);
    CollapseJoins(s, a.space);
    var words := SlugWords(a, text);
    if words == [] {
      JoinNone();
      StripMark("");
    } else {
      var j := Join(words);
      var led := Mark(Leads(s, a.space)) + j;
      StripMark(j);
      StripMark(led);
      assert "" + j == j && led + "" == led;
    }
  }

  lemma {:induction false} StripLeftCuts(s: string) returns (i: nat)
    ensures i <= |s| && StripLeft(s) == s[i..] && forall k :: 0 <= k < i ==> s[k] == '_'
  {
    if s == "" || s[0] != '_' {
      return 0;
    }
    var n := StripLeftCuts(s[1..]);
    i := n + 1;
    assert s[1..][n..] == s[i..];
    assert forall k :: 0 < k < i ==> s[k] == s[1..][k - 1];
  }

  lemma {:induction false} StripRightCuts(s: string)
    ensures StripRight(s) <= s && forall k :: |StripRight(s)| <= k < |s| ==> s[k] == '_'
  {
    if s != "" && s[|s| - 1] == '_' {
      StripRightCuts(s[..|s| - 1]);
    }
  }

  /** What stripping cuts off at either end is underscores, and none is left there. */
  lemma StripCuts(s: string) returns (i: nat, j: nat)
    ensures i <= j <= |s| && Strip(s) == s[i..j]
    ensures forall k :: 0 <= k < |s| && !(i <= k < j) ==> s[k] == '_'
    ensures i < j ==> s[i] != '_' && s[j - 1] != '_'
  {
    i := StripLeftCuts(s);
    var t := StripLeft(s);
    StripRightCuts(t);
    j := i + |Strip(s)|;
    assert Strip(s) == t[..|Strip(s)|];
    StripEnds(s);
    assert forall k :: i <= k < |s| ==> s[k] == t[k - i];
  }

  lemma {:induction false} NothingToCollapse(s: string, sep: char -> bool)
    requires forall c :: c in s ==> !sep(c)
    ensures Collapse(s, sep) == s
  {
    if s != "" {
      NothingToCollapse(s[1..], sep);
    }
  }

  lemma SlugUnchanged(a: Alphabet, s: string)
    requires Consistent(a) && IsSlug(a, s)
    ensures Slugify(a, s) == s
  {
    assert Lower(a, s) == s by {
      assert forall i :: 0 <= i < |s| ==> s[i] in s;
    }
    FilterAll(s, c => a.word(c) || a.space(c));
    NothingToCollapse(s, a.space);
  }

  /** The slugs are exactly the texts that making a slug leaves alone, so making
      one twice is making it once. */
  lemma SlugsAreFixed(a: Alphabet, s: string)
    requires Consistent(a)
    ensures Slugify(a, s) == s <==> IsSlug(a, s)
    ensures Slugify(a, Slugify(a, s)) == Slugify(a, s)
  {
    SlugifyMakesSlugs(a, s);
    if IsSlug(a, s) {
      SlugUnchanged(a, s);
    }
    SlugUnchanged(a, Slugify(a, s));
  }

  // ---------------------------------------------------------------------
  // Quoted values
  // ---------------------------------------------------------------------

  /** A value with a backslash put before each quote mark. */
  function Escape(v: string, q: char): string {
    ReplaceAll(v, [q], ['\\', q])
  }

  /** What a language makes of a character after a backslash, and which
      characters may not stand in a quoted literal because they end the line. */
  datatype Language = Language(unescape: char -> string, endsLine: char -> bool)

  function Before(text: string, r: Option<(string, string)>): (r': Option<(string, string)>)
    ensures r'.Some? == r.Some? && (r.Some? ==> r' == Some((text + r.value.0, r.value.1)))
  {
    if r.Some? then Some((text + r.value.0, r.value.1)) else None
  }

  /** Reads a string literal past its opening quote mark: its value and what
      follows it. */
  function Lex(s: string, q: char, l: Language): (r: Option<(string, string)>)
    ensures r.Some? ==> |r.value.1| < |s|
  {
    if s == "" || l.endsLine(s[0]) then None
    else if s[0] == q then Some(("", s[1..]))
    else if s[0] == '\\' then
      if |s| == 1 then None else Before(l.unescape(s[1]), Lex(s[2..], q, l))
    else Before([s[0]], Lex(s[1..], q, l))
  }

  predicate Keeps(l: Language, c: char) {
    l.unescape(c) == ['\\', c]
  }

  /** A language of simple escapes: a backslash and one character stand for that
      quote mark, for themselves, or for at most one character. */
  ghost predicate SimpleEscapes(q: char, l: Language) {
    && q != '\\' && !l.endsLine(q) && !l.endsLine('\\') && l.unescape(q) == [q]
    && forall c :: Keeps(l, c) || |l.unescape(c)| <= 1
  }

  /** No bare line end, and no backslash but before a character whose escape is kept. */
  predicate Printable(v: string, q: char, l: Language) {
    v == ""
    || (v[0] == '\\' && |v| > 1 && v[1] != q && Keeps(l, v[1]) && Printable(v[2..], q, l))
    || (v[0] != '\\' && !l.endsLine(v[0]) && Printable(v[1..], q, l))
  }

  lemma EscapeNothing(q: char)
    ensures Escape("", q) == ""
  {
  }

  lemma EscapeUnfolds(v: string, q: char)
    requires v != ""
    ensures Escape(v, q) == (if v[0] == q then ['\\', q] else [v[0]]) + Escape(v[1..], q)
  {
    assert v[..1] == [v[0]];
  }

  /** What is read back, if the literal ends where it should, is never longer than
      the value, and is the value exactly when the value is printable. */
  lemma {:induction false} ReadBack(v: string, rest: string, q: char, l: Language)
    requires SimpleEscapes(q, l)
    ensures var r := Lex(Escape(v, q) + [q] + rest, q, l);
      && (Printable(v, q, l) ==> r == Some((v, rest)))
      && (r.Some? && r.value.1 == rest ==> |r.value.0| <= |v| && (r.value.0 == v ==> Printable(v, q, l)))
    decreases |v|
  {
    hide Escape;
    hide Keeps;
    var s := Escape(v, q) + [q] + rest;
    if v == "" {
      EscapeNothing(q);
      assert s == [q] + rest;
    } else {
      EscapeUnfolds(v, q);
      if v[0] == q {
        ReadBack(v[1..], rest, q, l);
        assert s == ['\\', q] + (Escape(v[1..], q) + [q] + rest);
        assert s[2..] == Escape(v[1..], q) + [q] + rest;
        assert v == [q] + v[1..];
      } else if v[0] == '\\' {
        BackslashRead(v, rest, q, l);
      } else {
        ReadBack(v[1..], rest, q, l);
        assert s == [v[0]] + (Escape(v[1..], q) + [q] + rest);
        assert s[1..] == Escape(v[1..], q) + [q] + rest;
        assert v == [v[0]] + v[1..];
      }
    }
  }

  lemma {:induction false} BackslashRead(v: string, rest: string, q: char, l: Language)
    requires SimpleEscapes(q, l) && v != "" && v[0] == '\\'
    ensures var r := Lex(Escape(v, q) + [q] + rest, q, l);
      && (Printable(v, q, l) ==> r == Some((v, rest)))
      && (r.Some? && r.value.1 == rest ==> |r.value.0| <= |v| && (r.value.0 == v ==> Printable(v, q, l)))
    decreases |v|, 0
  {
    hide Escape;
    var s := Escape(v, q) + [q] + rest;
    EscapeUnfolds(v, q);
    if |v| == 1 {
      EscapeNothing(q);
      assert v[1..] == "";
      assert s == ['\\', q] + rest;
      assert s[2..] == rest;
    } else {
      EscapeUnfolds(v[1..], q);
      var after := Escape(v[2..], q) + [q] + rest;
      assert v[1..][1..] == v[2..];
      if v[1] == q {
        assert s == ['\\', '\\', q] + after;
        assert s[2..] == [q] + after && s[2..][1..] == after;
      } else {
        ReadBack(v[2..], rest, q, l);
        assert s == ['\\', v[1]] + after;
        assert s[2..] == after;
        assert v == ['\\', v[1]] + v[2..];
      }
    }
  }

  /** An escaped value between its quote marks reads back as itself, with all that
      follows it left over, exactly when the value is printable. */
  lemma QuotedReadsBackIff(v: string, rest: string, q: char, l: Language)
    requires SimpleEscapes(q, l)
    ensures Lex(Escape(v, q) + [q] + rest, q, l) == Some((v, rest)) <==> Printable(v, q, l)
  {
    ReadBack(v, rest, q, l);
  }

  /** A value without backslash and line end is printable in every language, and
      where no escape is kept these are the only ones. */
  lemma {:induction false} PrintableWithoutBackslash(v: string, q: char, l: Language)
    ensures (forall c :: c in v ==> c != '\\' && !l.endsLine(c)) ==> Printable(v, q, l)
    ensures (forall c :: !Keeps(l, c)) && Printable(v, q, l) ==> forall c :: c in v ==> c != '\\' && !l.endsLine(c)
  {
    if v != "" {
      PrintableWithoutBackslash(v[1..], q, l);
      assert v == [v[0]] + v[1..];
      assert forall c :: c in v[1..] ==> c in v;
      assert v[0] in v;
    }
  }
}
