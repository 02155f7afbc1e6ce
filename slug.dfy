/** `generateSlug`, shared by the blog and portfolio managers: the title in
    lower case, every run of characters other than `a`-`z` and `0`-`9`
    replaced by one dash, and a dash at either end removed. */
module Slug {
  import opened Text

  /** A character of the class `[a-z0-9]`. */
  predicate IsSlugChar(c: char) {
    'a' <= c <= 'z' || '0' <= c <= '9'
  }

  /** Lower-case letters and digits, separated by single dashes, with no
      dash at either end. */
  predicate IsSlug(s: string) {
    (forall i :: 0 <= i < |s| ==> IsSlugChar(s[i]) || s[i] == '-')
    && (forall i :: 0 <= i < |s| - 1 ==> s[i] != '-' || s[i + 1] != '-')
    && (s != [] ==> s[0] != '-' && s[|s| - 1] != '-')
  }

  /** Letters and digits, each dash alone. */
  predicate Dashed(s: string) {
    (forall i :: 0 <= i < |s| ==> IsSlugChar(s[i]) || s[i] == '-')
    && (forall i :: 0 <= i < |s| - 1 ==> s[i] != '-' || s[i + 1] != '-')
  }

  /** What is left once the leading run of `[^a-z0-9]` is matched. */
  function SkipRun(s: string): (r: string)
    ensures |r| <= |s| && r == s[|s| - |r|..]
    ensures r == [] || IsSlugChar(r[0])
    decreases |s|
  {
    if s != [] && !IsSlugChar(s[0]) then SkipRun(s[1..]) else s
  }

  /** `.replace(/[^a-z0-9]+/g, '-')`. */
  function Collapse(s: string): (r: string)
    ensures s == [] <==> r == []
    ensures s != [] && IsSlugChar(s[0]) ==> r[0] == s[0]
    decreases |s|
  {
    if s == [] then []
    else if IsSlugChar(s[0]) then [s[0]] + Collapse(s[1..])
    else "-" + Collapse(SkipRun(s[1..]))
  }

  /** `.replace(/(^-|-$)/g, '')`: one dash at the start and one at the
      end. */
  function StripDashes(s: string): string {
    var a := StripFront(s);
    if a != [] && a[|a| - 1] == '-' then a[..|a| - 1] else a
  }

  /** `generateSlug(title)`. */
  function GenerateSlug(title: string): string {
    StripDashes(Collapse(ToLower(title)))
  }

  /** The letters and digits of `s`, in order. */
  function Letters(s: string): string
    decreases |s|
  {
    if s == [] then [] else (if IsSlugChar(s[0]) then [s[0]] else []) + Letters(s[1..])
  }

  lemma {:induction false} LettersAppend(a: string, b: string)
    ensures Letters(a + b) == Letters(a) + Letters(b)
    decreases |a|
  {
    if a == [] {
      assert a + b == b;
    } else {
      assert (a + b)[0] == a[0];
      assert (a + b)[1..] == a[1..] + b;
      LettersAppend(a[1..], b);
      var h := if IsSlugChar(a[0]) then [a[0]] else [];
      assert Letters(a + b) == h + (Letters(a[1..]) + Letters(b));
      assert h + (Letters(a[1..]) + Letters(b)) == (h + Letters(a[1..])) + Letters(b);
    }
  }

  lemma {:induction false} LettersSkipRun(s: string)
    ensures Letters(SkipRun(s)) == Letters(s)
    decreases |s|
  {
    if s != [] && !IsSlugChar(s[0]) {
      LettersSkipRun(s[1..]);
    }
  }

  /** Collapsing keeps every letter and digit, in order. */
  lemma {:induction false} LettersCollapse(s: string)
    ensures Letters(Collapse(s)) == Letters(s)
    decreases |s|
  {
    if s != [] {
      if IsSlugChar(s[0]) {
        LettersCollapse(s[1..]);
        LettersAppend([s[0]], Collapse(s[1..]));
      } else {
        LettersCollapse(SkipRun(s[1..]));
        LettersSkipRun(s[1..]);
        LettersAppend("-", Collapse(SkipRun(s[1..])));
      }
    }
  }

  /** Collapsing leaves letters, digits and lone dashes. */
  lemma {:induction false} CollapseDashed(s: string)
    ensures Dashed(Collapse(s))
    decreases |s|
  {
    if s != [] {
      if IsSlugChar(s[0]) {
        CollapseDashed(s[1..]);
      } else {
        var t := SkipRun(s[1..]);
        CollapseDashed(t);
        assert Collapse(s) == "-" + Collapse(t);
      }
    }
  }

  /** The first step of `StripDashes`: a dashed string without its
      leading dash. */
  function StripFront(s: string): string {
    if s != [] && s[0] == '-' then s[1..] else s
  }

  lemma StripFrontDashed(s: string)
    requires Dashed(s)
    ensures Dashed(StripFront(s)) && (StripFront(s) != [] ==> StripFront(s)[0] != '-')
    ensures Letters(StripFront(s)) == Letters(s)
  {
    if s != [] && s[0] == '-' {
      assert s == "-" + s[1..];
      LettersAppend("-", s[1..]);
      assert s[1..] != [] ==> s[1..][0] == s[1];
    }
  }

  /** The second step: a dashed string that does not start with a dash,
      without its trailing dash, is a slug. */
  lemma StripBackSlug(a: string)
    requires Dashed(a) && (a != [] ==> a[0] != '-')
    ensures var r := if a != [] && a[|a| - 1] == '-' then a[..|a| - 1] else a;
      IsSlug(r) && Letters(r) == Letters(a)
  {
    if a != [] && a[|a| - 1] == '-' {
      var b := a[..|a| - 1];
      assert a == b + "-";
      LettersAppend(b, "-");
      assert forall i :: 0 <= i < |b| ==> b[i] == a[i];
    }
  }

  /** Stripping the end dashes of a dashed string gives a slug with the
      same letters. */
  lemma StripSlug(s: string)
    requires Dashed(s)
    ensures IsSlug(StripDashes(s)) && Letters(StripDashes(s)) == Letters(s)
  {
    StripFrontDashed(s);
    StripBackSlug(StripFront(s));
  }

  /** The generated slug is a slug, and its letters and digits are those of
      the lower-cased title. */
  lemma GenerateSlugShape(title: string)
    ensures IsSlug(GenerateSlug(title))
    ensures Letters(GenerateSlug(title)) == Letters(ToLower(title))
  {
    var c := Collapse(ToLower(title));
    CollapseDashed(ToLower(title));
    LettersCollapse(ToLower(title));
    StripSlug(c);
  }

  /** A dashed string collapses to itself. */
  lemma {:induction false} CollapseDashedFixed(s: string)
    requires Dashed(s)
    ensures Collapse(s) == s
    decreases |s|
  {
    if s != [] {
      assert Dashed(s[1..]);
      if !IsSlugChar(s[0]) {
        assert s[1..] == [] || IsSlugChar(s[1]);
        assert SkipRun(s[1..]) == s[1..];
      }
      CollapseDashedFixed(s[1..]);
    }
  }

  /** A slug is its own slug. */
  lemma SlugFixed(s: string)
    requires IsSlug(s)
    ensures GenerateSlug(s) == s
  {
    assert forall i :: 0 <= i < |s| ==> ToLower(s)[i] == s[i];
    assert ToLower(s) == s;
    CollapseDashedFixed(s);
  }

  /** `generateSlug` is idempotent. */
  lemma GenerateSlugIdempotent(title: string)
    ensures GenerateSlug(GenerateSlug(title)) == GenerateSlug(title)
  {
    GenerateSlugShape(title);
    SlugFixed(GenerateSlug(title));
  }

  /** `formData.slug || generateSlug(formData.title)`: the typed slug when
      there is one, else a slug made of the title's letters and digits. */
  function SavedSlug(typed: string, title: string): (r: string)
    ensures typed != "" ==> r == typed
    ensures typed == "" ==> IsSlug(r) && Letters(r) == Letters(ToLower(title))
  {
    GenerateSlugShape(title);
    if typed != "" then typed else GenerateSlug(title)
  }
}
