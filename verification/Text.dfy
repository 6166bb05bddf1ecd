/** Substring replacement, as Python's `str.replace` does it. */
module Text {
  /** Replaces the occurrences of `pat`, found from left to right without overlap. */
  function ReplaceAll(s: string, pat: string, rep: string): string
    requires pat != ""
    decreases |s|
  {
    if |s| < |pat| then s
    else if s[..|pat|] == pat then rep + ReplaceAll(s[|pat|..], pat, rep)
    else [s[0]] + ReplaceAll(s[1..], pat, rep)
  }

  predicate OccursAt(s: string, pat: string, i: nat) {
    i + |pat| <= |s| && s[i..i + |pat|] == pat
  }

  predicate Occurs(s: string, pat: string) {
    exists i :: 0 <= i <= |s| && OccursAt(s, pat, i)
  }

  lemma OccursChar(s: string, pat: string, i: nat, k: nat)
    ensures OccursAt(s, pat, i) && k < |pat| ==> s[i + k] == pat[k]
  {
    if OccursAt(s, pat, i) && k < |pat| {
      assert s[i..i + |pat|][k] == s[i + k];
    }
  }

  /** `pat` does not occur in `s`. */
  ghost predicate Free(s: string, pat: string) {
    forall i: nat :: !OccursAt(s, pat, i)
  }

  lemma {:induction false} FreeUnchanged(s: string, pat: string, rep: string)
    requires pat != "" && Free(s, pat)
    ensures ReplaceAll(s, pat, rep) == s
    decreases |s|
  {
    if |s| >= |pat| {
      assert !OccursAt(s, pat, 0);
      forall i: nat
        ensures !OccursAt(s[1..], pat, i)
      {
        assert !OccursAt(s, pat, i + 1);
      }
      FreeUnchanged(s[1..], pat, rep);
    }
  }

  lemma NoFirstCharFree(s: string, pat: string)
    requires pat != "" && pat[0] !in s
    ensures Free(s, pat)
  {
    forall i: nat
      ensures !OccursAt(s, pat, i)
    {
      OccursChar(s, pat, i, 0);
    }
  }

  /** Characters that cannot start the pattern are copied. */
  lemma {:induction false} CopyUntil(a: string, rest: string, pat: string, rep: string)
    requires pat != "" && pat[0] !in a
    ensures ReplaceAll(a + rest, pat, rep) == a + ReplaceAll(rest, pat, rep)
  {
    if a == "" {
      assert a + rest == rest;
    } else {
      CopyUntil(a[1..], rest, pat, rep);
      assert (a + rest)[1..] == a[1..] + rest;
      if |a + rest| >= |pat| {
        assert (a + rest)[..|pat|][0] == a[0];
      } else {
        assert |rest| < |pat|;
        assert |a[1..] + rest| < |pat|;
      }
    }
  }

  /** Short texts have no room for the pattern. */
  lemma TooShort(s: string, pat: string, rep: string)
    requires pat != "" && |s| < |pat|
    ensures ReplaceAll(s, pat, rep) == s
  {
  }

  lemma NotAtFront(s: string, pat: string, rep: string)
    requires pat != "" && s != "" && !(pat <= s)
    ensures ReplaceAll(s, pat, rep) == [s[0]] + ReplaceAll(s[1..], pat, rep)
  {
    assert |s| >= |pat| ==> s[..|pat|] != pat;
    if |s| < |pat| {
      assert [s[0]] + s[1..] == s;
    }
  }

  lemma AtFront(s: string, pat: string, rep: string)
    requires pat != "" && pat <= s
    ensures ReplaceAll(s, pat, rep) == rep + ReplaceAll(s[|pat|..], pat, rep)
  {
  }

  lemma SplitStep(a: string, c: char, b: string, pat: string)
    requires c !in pat && !(pat <= a)
    ensures !(pat <= a + [c] + b)
  {
    var s := a + [c] + b;
    assert s[|a|] == c;
    assert forall k :: 0 <= k < |a| ==> s[k] == a[k];
  }

  /** A character that is not in the pattern cuts the work in two. */
  lemma {:induction false} SplitAt(a: string, c: char, b: string, pat: string, rep: string)
    requires pat != "" && c !in pat
    ensures ReplaceAll(a + [c] + b, pat, rep) == ReplaceAll(a, pat, rep) + [c] + ReplaceAll(b, pat, rep)
    decreases |a|
  {
    hide ReplaceAll;
    var s := a + [c] + b;
    if a == "" {
      assert s == [c] + b;
      CopyUntil([c], b, pat, rep);
      TooShort(a, pat, rep);
    } else if pat <= a {
      AtFront(s, pat, rep);
      AtFront(a, pat, rep);
      assert s[|pat|..] == a[|pat|..] + [c] + b;
      SplitAt(a[|pat|..], c, b, pat, rep);
    } else {
      SplitStep(a, c, b, pat);
      NotAtFront(s, pat, rep);
      NotAtFront(a, pat, rep);
      assert s[1..] == a[1..] + [c] + b;
      SplitAt(a[1..], c, b, pat, rep);
    }
  }

  lemma Assoc(a: string, b: string, c: string)
    ensures a + (b + c) == a + b + c
  {
  }

  function Quote(v: string): string {
    "\"" + v + "\""
  }

  lemma ReplaceHit(b: string, v: string, rep: string)
    ensures ReplaceAll(Quote(v) + b, Quote(v), rep) == rep + ReplaceAll(b, Quote(v), rep)
  {
    var s := Quote(v) + b;
    assert s[..|Quote(v)|] == Quote(v) && s[|Quote(v)|..] == b;
  }

  lemma SameLengthQuoted(x: string, v: string, s: string)
    requires '\"' !in x && '\"' !in v && Quote(v) <= s && Quote(x) <= s
    ensures |x| == |v|
  {
    assert Quote(v)[|v| + 1] == s[|v| + 1] == '\"';
    assert Quote(x)[|x| + 1] == s[|x| + 1] == '\"';
    assert forall k :: 0 <= k < |x| ==> s[k + 1] == Quote(x)[k + 1] == x[k];
    assert forall k :: 0 <= k < |v| ==> s[k + 1] == Quote(v)[k + 1] == v[k];
  }

  lemma QuotedPrefix(x: string, b: string, v: string)
    requires '\"' !in x && '\"' !in v && Quote(v) <= Quote(x) + b
    ensures x == v
  {
    var s := Quote(x) + b;
    assert s[0..|v| + 2] == Quote(v);
    SameLengthQuoted(x, v, s);
    assert s[1..|x| + 1] == x && Quote(v)[1..|v| + 1] == v;
  }

  lemma ReplaceMiss(x: string, b: string, v: string, rep: string)
    requires '\"' !in x && '\"' !in v && x != v
    ensures ReplaceAll(Quote(x) + b, Quote(v), rep) == "\"" + x + ReplaceAll("\"" + b, Quote(v), rep)
  {
    var pat, s := Quote(v), Quote(x) + b;
    assert !(pat <= s) by {
      if pat <= s {
        QuotedPrefix(x, b, v);
        assert false;
      }
    }
    assert s[0] == '\"' && s[1..] == x + ("\"" + b);
    CopyUntil(x, "\"" + b, pat, rep);
    NotAtFront(s, pat, rep);
    Assoc("\"", x, ReplaceAll("\"" + b, pat, rep));
  }

  /** Replacing a quoted text looks at one quoted stretch at a time. */
  lemma ReplaceQuoted(a: string, x: string, b: string, v: string, rep: string)
    requires '\"' !in a && '\"' !in x && '\"' !in v
    ensures ReplaceAll(a + Quote(x) + b, Quote(v), rep)
         == a + if x == v then rep + ReplaceAll(b, Quote(v), rep)
                else "\"" + x + ReplaceAll("\"" + b, Quote(v), rep)
  {
    Assoc(a, Quote(x), b);
    CopyUntil(a, Quote(x) + b, Quote(v), rep);
    if x == v {
      ReplaceHit(b, v, rep);
    } else {
      ReplaceMiss(x, b, v, rep);
    }
  }

  /** A single quote mark cannot complete a quoted text. */
  lemma LoneQuote(b: string, v: string, rep: string)
    requires '\"' !in b
    ensures ReplaceAll("\"" + b, Quote(v), rep) == "\"" + b
  {
    var s := "\"" + b;
    forall i: nat
      ensures !OccursAt(s, Quote(v), i)
    {
      OccursChar(s, Quote(v), i, |v| + 1);
      assert forall k :: 0 < k < |s| ==> s[k] == b[k - 1];
    }
    FreeUnchanged(s, Quote(v), rep);
  }

  lemma SecondQuoted(mid: string, f: string, tail: string, v: string, rep: string)
    requires '\"' !in v && '\"' !in mid && '\"' !in f && '\"' !in tail
    ensures ReplaceAll(mid + Quote(f) + tail, Quote(v), rep) == mid + (if f == v then rep else Quote(f)) + tail
  {
    ReplaceQuoted(mid, f, tail, v, rep);
    if f == v {
      NoFirstCharFree(tail, Quote(v));
      FreeUnchanged(tail, Quote(v), rep);
      Assoc(mid, rep, tail);
    } else {
      LoneQuote(tail, v, rep);
      assert "\"" + f + ("\"" + tail) == Quote(f) + tail;
      Assoc(mid, Quote(f), tail);
    }
  }

  /** Two quoted stretches, the first of them the one looked for. */
  lemma ReplaceTwoQuoted(head: string, v: string, mid: string, f: string, tail: string, rep: string)
    requires '\"' !in head && '\"' !in v && '\"' !in mid && '\"' !in f && '\"' !in tail
    ensures ReplaceAll(head + Quote(v) + (mid + Quote(f) + tail), Quote(v), rep)
         == head + rep + (mid + (if f == v then rep else Quote(f)) + tail)
  {
    var rest := mid + Quote(f) + tail;
    ReplaceQuoted(head, v, rest, v, rep);
    var rest' := ReplaceAll(rest, Quote(v), rep);
    assert rest' == mid + (if f == v then rep else Quote(f)) + tail by {
      SecondQuoted(mid, f, tail, v, rep);
    }
    Assoc(head, rep, rest');
  }

  /** Replacement inside one quoted stretch, when nothing before it can start the
      pattern and nothing after it holds the pattern. */
  lemma ReplaceInsideQuotes(head: string, x: string, tail: string, pat: string, rep: string)
    requires pat != "" && pat[0] !in head && '\"' !in pat && ReplaceAll(tail, pat, rep) == tail
    ensures ReplaceAll(head + Quote(x) + tail, pat, rep) == head + Quote(ReplaceAll(x, pat, rep)) + tail
  {
    var lead := head + "\"";
    assert head + Quote(x) + tail == lead + (x + ['\"'] + tail);
    CopyUntil(lead, x + ['\"'] + tail, pat, rep);
    SplitAt(x, '\"', tail, pat, rep);
    assert lead + (ReplaceAll(x, pat, rep) + ['\"'] + tail) == head + Quote(ReplaceAll(x, pat, rep)) + tail;
  }
}
