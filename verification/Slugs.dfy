/** Slugs: lower-case letters and digits in runs, joined by single hyphens. */
module Slugs {
  import opened Text
  import opened Jwt

  predicate IsAlnum(c: char) {
    'a' <= c <= 'z' || '0' <= c <= '9'
  }

  /** Replaces every run of other characters by one hyphen. */
  function Hyphenate(s: string): string {
    if s == "" then ""
    else if IsAlnum(s[0]) then [s[0]] + Hyphenate(s[1..])
    else if |s| > 1 && !IsAlnum(s[1]) then Hyphenate(s[1..])
    else "-" + Hyphenate(s[1..])
  }

  function StripStart(s: string): string {
    if s != "" && s[0] == '-' then StripStart(s[1..]) else s
  }

  function StripEnd(s: string): string {
    if s != "" && s[|s| - 1] == '-' then StripEnd(s[..|s| - 1]) else s
  }

  function NormalizeSlug(p: Platform, value: string): string {
    StripEnd(StripStart(Hyphenate(p.toLowerCase(Trim(value)))))
  }

  /* ---------- what a slug is ---------- */

  /** A non-empty run of lower-case letters and digits. */
  predicate IsRun(run: string) {
    run != "" && forall i :: 0 <= i < |run| ==> IsAlnum(run[i])
  }

  predicate AreRuns(runs: seq<string>) {
    forall i :: 0 <= i < |runs| ==> IsRun(runs[i])
  }

  /** The maximal runs of lower-case letters and digits, in order. */
  function Runs(s: string): (runs: seq<string>)
    ensures AreRuns(runs)
    ensures s != "" && IsAlnum(s[0]) ==> runs != []
  {
    if s == "" then []
    else
      var rest := Runs(s[1..]);
      if !IsAlnum(s[0]) then rest
      else if |s| > 1 && IsAlnum(s[1]) then [[s[0]] + rest[0]] + rest[1..]
      else [[s[0]]] + rest
  }

  function Hyphen(present: bool): string {
    if present then "-" else ""
  }

  lemma JoinPrepend(c: char, first: string, rest: seq<string>)
    ensures Join([[c] + first] + rest, '-') == [c] + Join([first] + rest, '-')
  {
    var longer, shorter := [[c] + first] + rest, [first] + rest;
    assert longer[1..] == rest && shorter[1..] == rest;
    if rest != [] {
      assert ([c] + first) + ['-'] + Join(rest, '-') == [c] + (first + ['-'] + Join(rest, '-'));
    }
  }

  lemma JoinStart(first: string, rest: seq<string>)
    ensures Join([first] + rest, '-') == first + Hyphen(rest != []) + Join(rest, '-')
  {
    assert ([first] + rest)[1..] == rest;
  }

  lemma {:induction false} NoRuns(s: string)
    requires Runs(s) == []
    ensures forall i :: 0 <= i < |s| ==> !IsAlnum(s[i])
  {
    if s != "" {
      NoRuns(s[1..]);
      assert forall i :: 0 < i < |s| ==> s[i] == s[1..][i - 1];
    }
  }

  /** The runs joined, with at most one hyphen on either side. */
  function Hyphenated(s: string): string {
    Hyphen(s != "" && !IsAlnum(s[0])) + Join(Runs(s), '-') + Hyphen(Runs(s) != [] && !IsAlnum(s[|s| - 1]))
  }

  lemma Glue(a: string, b: string, c: string, d: string)
    ensures a + (b + c + d) == a + b + c + d && "" + a == a && a + "" == a
  {
    assert a + (b + c + d) == a + b + c + d;
    assert "" + a == a && a + "" == a;
  }

  lemma HyphenatedTail(s: string)
    requires |s| > 1
    ensures Hyphenated(s[1..]) == Hyphen(!IsAlnum(s[1])) + Join(Runs(s[1..]), '-') + Hyphen(Runs(s[1..]) != [] && !IsAlnum(s[|s| - 1]))
  {
  }

  /** The case of a letter or digit that ends its run. */
  lemma HyphenatedRunEnd(s: string)
    requires |s| > 1 && IsAlnum(s[0]) && !IsAlnum(s[1]) && Hyphenate(s[1..]) == Hyphenated(s[1..])
    ensures Hyphenate(s) == Hyphenated(s)
  {
    var first, rest := [s[0]], Runs(s[1..]);
    var joined := Join(rest, '-');
    JoinStart(first, rest);
    HyphenatedTail(s);
    if rest == [] {
      NoRuns(s[1..]);
      assert s[|s| - 1] == s[1..][|s| - 2];
      Glue(first, "-", "", "");
      Glue("-", "", "", "");
      assert joined == "";
    } else {
      Glue(first, "-", joined, Hyphen(!IsAlnum(s[|s| - 1])));
      Glue(first + "-" + joined, "", "", "");
    }
  }

  /** The case of a letter or digit inside a run. */
  lemma HyphenatedRunInside(s: string)
    requires |s| > 1 && IsAlnum(s[0]) && IsAlnum(s[1]) && Hyphenate(s[1..]) == Hyphenated(s[1..])
    ensures Hyphenate(s) == Hyphenated(s)
  {
    var first, rest := [s[0]], Runs(s[1..]);
    var joined := Join(rest, '-');
    assert rest == [rest[0]] + rest[1..];
    JoinPrepend(s[0], rest[0], rest[1..]);
    HyphenatedTail(s);
    Glue(first, "", joined, Hyphen(!IsAlnum(s[|s| - 1])));
    Glue(first + joined, "", "", "");
    Glue(first, "", "", "");
  }

  lemma {:induction false} HyphenatedRuns(s: string)
    ensures Hyphenate(s) == Hyphenated(s)
  {
    if s != "" {
      HyphenatedRuns(s[1..]);
      if IsAlnum(s[0]) {
        if |s| > 1 && IsAlnum(s[1]) {
          HyphenatedRunInside(s);
        } else if |s| > 1 {
          HyphenatedRunEnd(s);
        }
      }
    }
  }

  lemma {:induction false} JoinEnds(runs: seq<string>)
    requires runs != [] && AreRuns(runs)
    ensures var j := Join(runs, '-');
            j != "" && IsAlnum(j[0]) && IsAlnum(j[|j| - 1])
  {
    assert IsRun(runs[0]);
    if |runs| > 1 {
      JoinEnds(runs[1..]);
    }
  }

  lemma {:induction false} StripTrailing(s: string, present: bool)
    requires s == "" || s[|s| - 1] != '-'
    ensures StripEnd(s + Hyphen(present)) == s
  {
    assert (s + "-")[..|s|] == s;
    assert s + "" == s;
    assert StripEnd(s) == s;
  }

  lemma {:induction false} StripLeading(s: string, present: bool)
    requires s == "" || s[0] != '-'
    ensures StripStart(Hyphen(present) + s) == s
  {
    assert ("-" + s)[1..] == s;
    assert "" + s == s;
    assert StripStart(s) == s;
  }

  /** The slug is the runs of the trimmed lower-case text joined by single hyphens. */
  lemma SlugJoinsRuns(p: Platform, value: string)
    ensures NormalizeSlug(p, value) == Join(Runs(p.toLowerCase(Trim(value))), '-')
  {
    var s := p.toLowerCase(Trim(value));
    var runs := Runs(s);
    var joined := Join(runs, '-');
    HyphenatedRuns(s);
    var lead, trail := s != "" && !IsAlnum(s[0]), runs != [] && !IsAlnum(s[|s| - 1]);
    assert Hyphenate(s) == Hyphen(lead) + (joined + Hyphen(trail));
    if runs != [] {
      JoinEnds(runs);
      assert joined[0] != '-' && joined[|joined| - 1] != '-';
    }
    StripLeading(joined + Hyphen(trail), lead);
    StripTrailing(joined, trail);
  }

  lemma {:induction false} RunsPrepend(run: string, tail: string)
    requires IsRun(run) && (tail == "" || !IsAlnum(tail[0]))
    ensures Runs(run + tail) == [run] + Runs(tail)
  {
    var s := run + tail;
    assert s[0] == run[0];
    if |run| == 1 {
      assert s[1..] == tail;
      assert run == [s[0]];
    } else {
      assert s[1..] == run[1..] + tail && s[1] == run[1];
      assert forall i :: 0 <= i < |run[1..]| ==> run[1..][i] == run[i + 1];
      RunsPrepend(run[1..], tail);
      assert Runs(s[1..])[0] == run[1..];
      assert [s[0]] + run[1..] == run;
      assert Runs(s[1..])[1..] == Runs(tail);
    }
  }

  /** Splitting into runs recovers what was joined. */
  lemma {:induction false} RunsJoin(runs: seq<string>)
    requires AreRuns(runs)
    ensures Runs(Join(runs, '-')) == runs
  {
    if |runs| == 1 {
      RunsPrepend(runs[0], "");
      assert runs[0] + "" == runs[0];
    } else if runs != [] {
      var rest := Join(runs[1..], '-');
      RunsJoin(runs[1..]);
      assert ("-" + rest)[1..] == rest;
      assert Runs("-" + rest) == runs[1..];
      RunsPrepend(runs[0], "-" + rest);
      assert runs[0] + ['-'] + rest == runs[0] + ("-" + rest);
      assert [runs[0]] + runs[1..] == runs;
    }
  }

  predicate IsSlugChar(c: char) {
    IsAlnum(c) || c == '-'
  }

  /** Lower-casing does not touch lower-case letters, digits and hyphens. */
  ghost predicate KeepsSlugs(p: Platform) {
    forall s :: (forall c :: c in s ==> IsSlugChar(c)) ==> p.toLowerCase(s) == s
  }

  lemma {:induction false} JoinSlugChars(runs: seq<string>)
    requires AreRuns(runs)
    ensures forall c :: c in Join(runs, '-') ==> IsSlugChar(c)
  {
    if runs != [] {
      assert IsRun(runs[0]);
      if |runs| > 1 {
        JoinSlugChars(runs[1..]);
      }
    }
  }

  lemma JoinedIsTrim(runs: seq<string>)
    requires AreRuns(runs)
    ensures Trim(Join(runs, '-')) == Join(runs, '-')
  {
    var j := Join(runs, '-');
    if runs != [] {
      JoinEnds(runs);
      assert !IsSpace(j[0]) && !IsSpace(j[|j| - 1]);
    }
  }

  lemma JoinedIsFixed(p: Platform, runs: seq<string>)
    requires KeepsSlugs(p) && AreRuns(runs)
    ensures NormalizeSlug(p, Join(runs, '-')) == Join(runs, '-')
  {
    JoinSlugChars(runs);
    JoinedIsTrim(runs);
    RunsJoin(runs);
    SlugJoinsRuns(p, Join(runs, '-'));
  }

  /** A text is its own slug exactly when it is empty or joins runs by single hyphens. */
  lemma SlugFixedIff(p: Platform, value: string)
    requires KeepsSlugs(p)
    ensures NormalizeSlug(p, value) == value <==> exists runs :: AreRuns(runs) && Join(runs, '-') == value
  {
    SlugJoinsRuns(p, value);
    if runs :| AreRuns(runs) && Join(runs, '-') == value {
      JoinedIsFixed(p, runs);
    }
  }

  /** Normalising twice is normalising once. */
  lemma SlugIdempotent(p: Platform, value: string)
    requires KeepsSlugs(p)
    ensures NormalizeSlug(p, NormalizeSlug(p, value)) == NormalizeSlug(p, value)
  {
    SlugJoinsRuns(p, value);
    JoinedIsFixed(p, Runs(p.toLowerCase(Trim(value))));
  }
}
