/**
 * `GlobUtil.compile`: the translation of a configuration glob into
 * `java.util.regex` syntax. `*` stands for any sequence of characters, `,`
 * separates alternatives, and every other character stands for itself,
 * which the translation guarantees by quoting it with `\Q...\E` (what
 * `Pattern.quote` yields for a one-character string). Matching a name
 * against the regex is not modelled here; the filters take it as a
 * parameter.
 */
module Glob {
  import opened JavaTypes

  /** The regex text one glob character becomes. */
  function Piece(c: char): (p: string)
    ensures c == '*' ==> p == ".*"
    ensures c == ',' ==> p == "|"
    ensures c != '*' && c != ',' ==> p == "\\Q" + [c] + "\\E"
  {
    match c
    case '*' => ".*"
    case ',' => "|"
    case _ => "\\Q" + [c] + "\\E"
  }

  /** The regex text for a whole glob: the pieces of its characters, in order. */
  function Translate(glob: string): (r: string)
    ensures |glob| <= |r|
  {
    if glob == [] then [] else Piece(glob[0]) + Translate(glob[1..])
  }

  /** The loop of `compile`, appending one piece per character to a `StringBuilder`. */
  method Compile(glob: string) returns (regex: string)
    ensures regex == Translate(glob)
  {
    regex := [];
    var i := 0;
    while i < |glob|
      invariant 0 <= i <= |glob|
      invariant regex == Translate(glob[..i])
    {
      var c := glob[i];
      TranslateSnoc(glob, i);
      if c == '*' {
        regex := regex + ".*";
      } else if c == ',' {
        regex := regex + "|";
      } else {
        assert glob[i..i + 1] == [c];
        regex := regex + "\\Q" + glob[i..i + 1] + "\\E";
      }
      i := i + 1;
    }
    assert glob[..|glob|] == glob;
  }

  /** The empty glob gives the empty regex. */
  lemma TranslateEmpty()
    ensures Translate([]) == []
  {
  }

  /** Translation distributes over concatenation of globs. */
  lemma {:induction false} TranslateAppend(a: string, b: string)
    ensures Translate(a + b) == Translate(a) + Translate(b)
  {
    if a == [] {
      assert a + b == b;
    } else {
      assert (a + b)[0] == a[0];
      assert (a + b)[1..] == a[1..] + b;
      TranslateAppend(a[1..], b);
    }
  }

  /** Appending one character to a glob appends its piece to the regex. */
  lemma TranslateSnoc(glob: string, i: nat)
    requires i < |glob|
    ensures Translate(glob[..i + 1]) == Translate(glob[..i]) + Piece(glob[i])
  {
    TranslateAppend(glob[..i], [glob[i]]);
    assert glob[..i] + [glob[i]] == glob[..i + 1];
    TranslateSingle(glob[i]);
  }

  /** A glob of one character translates to that character's piece. */
  lemma TranslateSingle(c: char)
    ensures Translate([c]) == Piece(c)
  {
    assert [c][1..] == [];
  }

  /**
   * Reads a regex produced by `Translate` back into the glob: each piece
   * starts with a different character (`.`, `|`, `\`), so the reading is
   * unambiguous; `None` for text no glob produces.
   */
  function Untranslate(regex: string): (g: Option<string>)
    decreases |regex|
  {
    if regex == [] then Some([])
    else if |regex| >= 2 && regex[..2] == ".*" then
      var rest := Untranslate(regex[2..]);
      if rest.Some? then Some("*" + rest.value) else None
    else if regex[0] == '|' then
      var rest := Untranslate(regex[1..]);
      if rest.Some? then Some("," + rest.value) else None
    else if |regex| >= 5 && regex[..2] == "\\Q" && regex[3..5] == "\\E" && regex[2] != '*' && regex[2] != ',' then
      var rest := Untranslate(regex[5..]);
      if rest.Some? then Some([regex[2]] + rest.value) else None
    else None
  }

  /** The front-to-back form of `Translate`: the first character's piece, then the rest. */
  lemma TranslateCons(c: char, rest: string)
    ensures Translate([c] + rest) == Piece(c) + Translate(rest)
  {
    assert ([c] + rest)[1..] == rest;
  }

  /**
   * The translation loses nothing: the glob can be read back from its
   * regex, so distinct globs give distinct regexes and the only special
   * characters are `*` and `,`.
   */
  lemma {:induction false} UntranslateTranslate(glob: string)
    ensures Untranslate(Translate(glob)) == Some(glob)
    decreases |glob|
  {
    if glob != [] {
      var c := glob[0];
      var rest := glob[1..];
      assert glob == [c] + rest;
      TranslateCons(c, rest);
      UntranslateTranslate(rest);
      var r := Translate(glob);
      var p := Piece(c);
      assert r == p + Translate(rest);
      if c == '*' {
        assert r[..2] == ".*" && r[2..] == Translate(rest);
      } else if c == ',' {
        assert r[0] == '|' && r[1..] == Translate(rest);
      } else {
        assert r[..2] == "\\Q" && r[2] == c && r[3..5] == "\\E" && r[5..] == Translate(rest);
        assert !(|r| >= 2 && r[..2] == ".*");
      }
    }
  }

  /** Translation is injective. */
  lemma TranslateInjective(a: string, b: string)
    requires Translate(a) == Translate(b)
    ensures a == b
  {
    UntranslateTranslate(a);
    UntranslateTranslate(b);
  }

  /** Examples: `com.*` (dots already replaced) and a list of two choices. */
  lemma TranslateExamples()
    ensures Translate("a*") == "\\Qa\\E.*"
    ensures Translate("a,b") == "\\Qa\\E|\\Qb\\E"
    ensures Translate("*") == ".*"
  {
    TranslateCons('a', "*");
    TranslateSingle('*');
    TranslateCons('a', ",b");
    TranslateCons(',', "b");
    TranslateSingle('b');
  }
}
