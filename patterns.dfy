/**
 * Class-name patterns from the configuration, as both transformers build
 * them: every `.` of a configured glob becomes `/` (class names arrive in
 * internal form, `java/util/Map`), and the result is translated to a regex.
 * Whether a regex matches a name is left abstract: it is the parameter
 * `matches(regex, name)`.
 */
module Patterns {
  import opened Glob

  /** `s.startsWith(prefix)`. */
  predicate StartsWith(s: string, prefix: string) {
    |prefix| <= |s| && s[..|prefix|] == prefix
  }

  /** `s.replaceAll("\\.", "/")`. */
  function ReplaceDots(s: string): (r: string)
    ensures |r| == |s|
    ensures forall i :: 0 <= i < |s| ==> r[i] == (if s[i] == '.' then '/' else s[i])
    ensures '.' !in r
  {
    seq(|s|, i requires 0 <= i < |s| => if s[i] == '.' then '/' else s[i])
  }

  /** `createPatterns`: one compiled glob per configured string, in order. */
  function CreatePatterns(globs: seq<string>): (ps: seq<string>)
    ensures |ps| == |globs|
    ensures forall i :: 0 <= i < |globs| ==> ps[i] == Translate(ReplaceDots(globs[i]))
  {
    seq(|globs|, i requires 0 <= i < |globs| => Translate(ReplaceDots(globs[i])))
  }

  /** `patterns.stream().anyMatch(p -> p.matcher(name).matches())`. */
  predicate AnyMatch(patterns: seq<string>, name: string, matches: (string, string) -> bool) {
    exists i :: 0 <= i < |patterns| && matches(patterns[i], name)
  }

  /** Dotted and slashed spellings of a class-name glob give the same pattern. */
  lemma DotsAndSlashesAgree(a: string, b: string)
    requires |a| == |b|
    requires forall i :: 0 <= i < |a| ==> a[i] == b[i] || (a[i] in "./" && b[i] in "./")
    ensures Translate(ReplaceDots(a)) == Translate(ReplaceDots(b))
  {
    assert ReplaceDots(a) == ReplaceDots(b);
  }

  /** An example: `com.foo.*` becomes the quoted `com/foo/` followed by `.*`. */
  lemma ReplaceDotsExample()
    ensures ReplaceDots("com.foo.*") == "com/foo/*"
  {
  }
}
