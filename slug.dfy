/**
 * The URL slug pipeline shared by the category and product forms:
 * lower-case, drop every character outside `[a-z0-9\s-]`, turn each run of
 * white space into `-`, collapse each run of `-` into one, then `trim`.
 */
module Slug {
  import opened Text

  predicate IsSlugChar(c: char) {
    ('a' <= c <= 'z') || ('0' <= c <= '9')
  }

  predicate IsDash(c: char) {
    c == '-'
  }

  /** `.replace(/[^a-z0-9\s-]/g, '')` */
  function KeepAllowed(s: string): (r: string)
    ensures forall i :: 0 <= i < |r| ==> IsSlugChar(r[i]) || IsSpace(r[i]) || r[i] == '-'
  {
    if s == [] then []
    else (if IsSlugChar(s[0]) || IsSpace(s[0]) || s[0] == '-' then [s[0]] else []) + KeepAllowed(s[1..])
  }

  /** The maximal leading run of characters satisfying `p`, removed. */
  function DropRun(s: string, p: char -> bool): (r: string)
    ensures |r| <= |s| && r == s[|s| - |r|..]
    ensures r == [] || !p(r[0])
  {
    if s != [] && p(s[0]) then DropRun(s[1..], p) else s
  }

  /** `.replace(/P+/g, c)`: every maximal run of characters satisfying `p` becomes the single `c`. */
  function CollapseRuns(s: string, p: char -> bool, c: char): (r: string)
    decreases |s|
  {
    if s == [] then []
    else if p(s[0]) then [c] + CollapseRuns(DropRun(s, p), p, c)
    else [s[0]] + CollapseRuns(s[1..], p, c)
  }

  /** Every character of the result is `c` or a character of `s` that does not satisfy `p`. */
  lemma {:induction false} CollapseRunsChars(s: string, p: char -> bool, c: char, q: char -> bool)
    requires forall i :: 0 <= i < |s| ==> q(s[i]) || p(s[i])
    requires q(c)
    ensures forall i :: 0 <= i < |CollapseRuns(s, p, c)| ==> q(CollapseRuns(s, p, c)[i])
    decreases |s|
  {
    if s != [] {
      if p(s[0]) {
        var d := DropRun(s, p);
        assert forall i :: 0 <= i < |d| ==> d[i] == s[|s| - |d| + i];
        CollapseRunsChars(d, p, c, q);
      } else {
        CollapseRunsChars(s[1..], p, c, q);
      }
    }
  }

  /** The result begins with `c` exactly when `s` begins with a run, and otherwise with `s[0]`. */
  lemma CollapseRunsHead(s: string, p: char -> bool, c: char)
    requires s != []
    ensures CollapseRuns(s, p, c) != []
    ensures CollapseRuns(s, p, c)[0] == if p(s[0]) then c else s[0]
  {
  }

  predicate NoDoubleDash(s: string) {
    forall i :: 0 <= i < |s| - 1 ==> !(s[i] == '-' && s[i + 1] == '-')
  }

  /** Putting one character before a string without `--` keeps it so unless both are dashes. */
  lemma ConsNoDouble(h: char, rest: string)
    requires NoDoubleDash(rest)
    requires rest == [] || h != '-' || rest[0] != '-'
    ensures NoDoubleDash([h] + rest)
  {
    var r := [h] + rest;
    forall i | 0 <= i < |r| - 1 ensures !(r[i] == '-' && r[i + 1] == '-') {
      if i > 0 {
        assert r[i] == rest[i - 1] && r[i + 1] == rest[i];
      }
    }
  }

  /** After collapsing runs of `-`, no two dashes are adjacent. */
  lemma {:induction false} CollapseDashesNoDouble(s: string)
    ensures NoDoubleDash(CollapseRuns(s, IsDash, '-'))
    decreases |s|
  {
    if s != [] {
      if IsDash(s[0]) {
        var d := DropRun(s, IsDash);
        CollapseDashesNoDouble(d);
        if d != [] {
          CollapseRunsHead(d, IsDash, '-');
        }
        ConsNoDouble('-', CollapseRuns(d, IsDash, '-'));
      } else {
        CollapseDashesNoDouble(s[1..]);
        ConsNoDouble(s[0], CollapseRuns(s[1..], IsDash, '-'));
      }
    }
  }

  /** A string with no character satisfying `p` goes through `CollapseRuns` unchanged. */
  lemma {:induction false} CollapseRunsNone(s: string, p: char -> bool, c: char)
    requires forall i :: 0 <= i < |s| ==> !p(s[i])
    ensures CollapseRuns(s, p, c) == s
  {
    if s != [] {
      CollapseRunsNone(s[1..], p, c);
      assert [s[0]] + s[1..] == s;
    }
  }

  /** Runs of length one are left as they are: a dash-collapsed string is a fixpoint. */
  lemma {:induction false} CollapseDashesFixpoint(s: string)
    requires NoDoubleDash(s)
    ensures CollapseRuns(s, IsDash, '-') == s
    decreases |s|
  {
    if s != [] {
      assert NoDoubleDash(s[1..]) by {
        forall i | 0 <= i < |s[1..]| - 1
          ensures !(s[1..][i] == '-' && s[1..][i + 1] == '-')
        {
          assert s[1..][i] == s[i + 1] && s[1..][i + 1] == s[i + 2];
        }
      }
      CollapseDashesFixpoint(s[1..]);
      if IsDash(s[0]) {
        assert s[1..] == [] || !IsDash(s[1]);
        assert DropRun(s, IsDash) == s[1..];
      }
      assert [s[0]] + s[1..] == s;
    }
  }

  /** `generateSlug` applied to a name. */
  function GenerateSlug(name: string): string {
    Trim(CollapseRuns(CollapseRuns(KeepAllowed(Lower(name)), IsSpace, '-'), IsDash, '-'))
  }

  predicate IsSlugOrDash(c: char) {
    IsSlugChar(c) || c == '-'
  }

  /** A well-formed slug: only `a-z`, `0-9` and `-`, and never two dashes in a row. */
  predicate WellFormed(s: string) {
    (forall i :: 0 <= i < |s| ==> IsSlugOrDash(s[i])) && NoDoubleDash(s)
  }

  /** What the passes before `trim` produce is well formed, so `trim` removes nothing. */
  lemma SlugBeforeTrim(name: string)
    ensures var d := CollapseRuns(CollapseRuns(KeepAllowed(Lower(name)), IsSpace, '-'), IsDash, '-');
      WellFormed(d) && GenerateSlug(name) == d
  {
    var k := KeepAllowed(Lower(name));
    var sp := CollapseRuns(k, IsSpace, '-');
    CollapseRunsChars(k, IsSpace, '-', IsSlugOrDash);
    var d := CollapseRuns(sp, IsDash, '-');
    CollapseRunsChars(sp, IsDash, '-', IsSlugOrDash);
    CollapseDashesNoDouble(sp);
    assert NoSpaces(d) by {
      forall i | 0 <= i < |d| ensures !IsSpace(d[i]) {
        assert IsSlugOrDash(d[i]);
      }
    }
    TrimNoSpaces(d);
  }

  /** Every slug is well formed: the output uses only `a-z`, `0-9`, `-`, with no `--`. */
  lemma SlugWellFormed(name: string)
    ensures WellFormed(GenerateSlug(name))
  {
    SlugBeforeTrim(name);
  }

  /** A well-formed slug contains no white space. */
  lemma WellFormedNoSpaces(s: string)
    requires WellFormed(s)
    ensures NoSpaces(s)
  {
    forall i | 0 <= i < |s| ensures !IsSpace(s[i]) {
      assert IsSlugOrDash(s[i]);
    }
  }

  /** Every pass leaves a well-formed slug as it is. */
  lemma SlugOfWellFormed(s: string)
    requires WellFormed(s)
    ensures GenerateSlug(s) == s
  {
    assert Lower(s) == s;
    KeepAllowedFixpoint(s);
    WellFormedNoSpaces(s);
    CollapseRunsNone(s, IsSpace, '-');
    CollapseDashesFixpoint(s);
    TrimNoSpaces(s);
  }

  /** Generating a slug from a slug returns it unchanged. */
  lemma SlugIdempotent(name: string)
    ensures GenerateSlug(GenerateSlug(name)) == GenerateSlug(name)
  {
    SlugWellFormed(name);
    SlugOfWellFormed(GenerateSlug(name));
  }

  /** A string of allowed characters passes the character filter unchanged. */
  lemma {:induction false} KeepAllowedFixpoint(s: string)
    requires forall i :: 0 <= i < |s| ==> IsSlugOrDash(s[i])
    ensures KeepAllowed(s) == s
  {
    if s != [] {
      KeepAllowedFixpoint(s[1..]);
      assert [s[0]] + s[1..] == s;
    }
  }

  /** The first three passes turn one leading space before a slug into a dash. */
  lemma LeadingSpaceToDash(s: string)
    requires WellFormed(s)
    ensures CollapseRuns(KeepAllowed(Lower(" " + s)), IsSpace, '-') == "-" + s
  {
    var t := " " + s;
    assert Lower(t) == t by {
      assert forall i :: 0 <= i < |t| ==> Lower(t)[i] == t[i];
    }
    assert KeepAllowed(t) == t by {
      KeepAllowedFixpoint(s);
      assert t[1..] == s;
    }
    WellFormedNoSpaces(s);
    assert DropRun(t, IsSpace) == s by {
      assert t[1..] == s;
    }
    CollapseRunsNone(s, IsSpace, '-');
  }

  /** A single leading dash before a slug that does not start with one survives the last two passes. */
  lemma LeadingDashKept(s: string)
    requires WellFormed(s) && (s == [] || s[0] != '-')
    ensures Trim(CollapseRuns("-" + s, IsDash, '-')) == "-" + s
  {
    var u := "-" + s;
    assert DropRun(u, IsDash) == s by {
      assert u[1..] == s;
    }
    CollapseDashesFixpoint(s);
    assert CollapseRuns(u, IsDash, '-') == u;
    WellFormedNoSpaces(s);
    assert NoSpaces(u) by {
      forall i | 0 <= i < |u| ensures !IsSpace(u[i]) {
        if i > 0 { assert u[i] == s[i - 1]; }
      }
    }
    TrimNoSpaces(u);
  }

  /** Leading white space becomes a leading dash that `trim` keeps. */
  lemma LeadingSpaceKept(s: string)
    requires WellFormed(s) && (s == [] || s[0] != '-')
    ensures GenerateSlug(" " + s) == "-" + s
  {
    LeadingSpaceToDash(s);
    LeadingDashKept(s);
  }

  /** `"rose"` is a well-formed slug. */
  lemma RoseWellFormed()
    ensures WellFormed("rose")
  {
    var rose := "rose";
    assert forall i :: 0 <= i < |rose| ==> IsSlugChar(rose[i]);
  }

  /** Concretely, `" rose"` becomes `"-rose"`. */
  lemma LeadingSpaceExample()
    ensures GenerateSlug(" rose") == "-rose"
  {
    RoseWellFormed();
    LeadingSpaceKept("rose");
    assert " " + "rose" == " rose" && "-" + "rose" == "-rose";
  }
}
