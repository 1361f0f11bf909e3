/**
 * The text of the generated `build_rev.rs`: a fixed template with the
 * version, the revision count and the run-time closure path filled in
 * (the `format!` expression of `main` in build.rs), and its decoder,
 * which reads the four constants back out of such a text.
 */
module BuildRev {
  import opened Wrappers
  import opened RustUsize

  /** The template up to the major version: a blank line, a doc comment, and the opening of LORRI_VERSION. */
  const VERSION_INTRO: string :=
    "\n"
    + "/// lorri version in MAJOR.MINOR format.\n"
    + "pub const LORRI_VERSION: &str = \""

  /** Between the major and the minor version. */
  const VERSION_SEPARATOR: string := "."

  /** From the end of LORRI_VERSION to the value of VERSION_BUILD_REV. */
  const REV_INTRO: string :=
    "\";\n"
    + "\n"
    + "/// Number of revisions in the Git tree.\n"
    + "pub const VERSION_BUILD_REV: usize = "

  /** From the end of VERSION_BUILD_REV to the value of RUN_TIME_CLOSURE. */
  const CLOSURE_INTRO: string :=
    ";\n"
    + "\n"
    + "/// Run-time closure parameters. This argument points to a file\n"
    + "/// generated by ./nix/runtime.nix in Lorri's source.\n"
    + "pub const RUN_TIME_CLOSURE: &str = \""

  /** The end of RUN_TIME_CLOSURE and of the file. */
  const TRAILER: string := "\";\n"

  /** The values the template embeds. */
  datatype Constants = Constants(major: string, minor: string, revCount: nat, closure: string)

  /** The length of the template's fixed text, without the inserted values. */
  const TEMPLATE_LENGTH: nat :=
    |VERSION_INTRO| + |VERSION_SEPARATOR| + |REV_INTRO| + |CLOSURE_INTRO| + |TRAILER|

  /**
   * The generated module. The version components and the closure path are
   * inserted verbatim, with no escaping and no check; the revision count
   * is written as its `Display`, the canonical decimal. So the text opens
   * with LORRI_VERSION holding `major.minor`, closes with the closure path
   * and the trailer, and each value adds exactly its own length.
   */
  function Render(major: string, minor: string, revCount: nat, closure: string): (r: string)
    ensures VERSION_INTRO + major + VERSION_SEPARATOR + minor <= r
    ensures |r| == TEMPLATE_LENGTH + |major| + |minor| + |DecimalText(revCount)| + |closure|
    ensures r[|r| - |TRAILER| - |closure|..] == closure + TRAILER
  {
    RenderSplit(VERSION_INTRO, major, VERSION_SEPARATOR, minor, REV_INTRO,
                DecimalText(revCount), CLOSURE_INTRO, closure, TRAILER);
    VERSION_INTRO + major + VERSION_SEPARATOR + minor + REV_INTRO
    + DecimalText(revCount) + CLOSURE_INTRO + closure + TRAILER
  }

  /** The longest prefix of `s` made of ASCII digits. */
  function DigitPrefix(s: string): (d: string)
    ensures AllDigits(d) && d <= s
    ensures |d| < |s| ==> !IsDigit(s[|d|])
  {
    if s != [] && IsDigit(s[0]) then [s[0]] + DigitPrefix(s[1..]) else []
  }

  /** The rest of `s` after the literal `lit`, if `s` starts with it. */
  function AfterLiteral(lit: string, s: string): (r: Option<string>)
    ensures r.Some? ==> s == lit + r.value
  {
    if lit <= s then Some(s[|lit|..]) else None
  }

  /**
   * Reads the constants back from a generated module whose version
   * components are digit strings: the partner of Render, used to state
   * that Render loses nothing. It reads the template piece by piece.
   */
  function ReadBack(text: string): Option<Constants> {
    match AfterLiteral(VERSION_INTRO, text)
    case None => None
    case Some(afterIntro) => ReadVersion(afterIntro)
  }

  /** Reads `major.minor` and what follows. */
  function ReadVersion(s: string): Option<Constants> {
    var major := DigitPrefix(s);
    match AfterLiteral(VERSION_SEPARATOR, s[|major|..])
    case None => None
    case Some(afterSeparator) =>
      var minor := DigitPrefix(afterSeparator);
      ReadRevCount(major, minor, afterSeparator[|minor|..])
  }

  /** Reads the value of VERSION_BUILD_REV, as `str::parse::<usize>` would, and what follows. */
  function ReadRevCount(major: string, minor: string, s: string): Option<Constants> {
    match AfterLiteral(REV_INTRO, s)
    case None => None
    case Some(afterIntro) =>
      var revText := DigitPrefix(afterIntro);
      match ParseUsize(revText)
      case None => None
      case Some(revCount) => ReadClosure(major, minor, revCount, afterIntro[|revText|..])
  }

  /** Reads the value of RUN_TIME_CLOSURE: everything up to the trailer that ends the file. */
  function ReadClosure(major: string, minor: string, revCount: nat, s: string): Option<Constants> {
    match AfterLiteral(CLOSURE_INTRO, s)
    case None => None
    case Some(closed) =>
      if |closed| < |TRAILER| || closed[|closed| - |TRAILER|..] != TRAILER then None
      else Some(Constants(major, minor, revCount, closed[..|closed| - |TRAILER|]))
  }

  /** Regrouping a concatenation of five pieces. */
  lemma Regroup(a: string, b: string, c: string, d: string, e: string)
    ensures a + b + c + d + e == a + (b + (c + d + e))
  {
  }

  /** Splitting the nine pieces of Render after the version, and before the closure. */
  lemma RenderSplit(a: string, b: string, c: string, d: string, e: string,
                    f: string, g: string, h: string, i: string)
    ensures a + b + c + d <= a + b + c + d + e + f + g + h + i
    ensures (a + b + c + d + e + f + g + h + i)[|a + b + c + d + e + f + g| ..] == h + i
  {
    var whole := a + b + c + d + e + f + g + h + i;
    assert whole == (a + b + c + d) + (e + f + g + h + i);
    assert whole == (a + b + c + d + e + f + g) + (h + i);
  }

  /** Regrouping the nine pieces of Render into intro, version and rest. */
  lemma RenderRegroup(a: string, b: string, c: string, d: string, e: string,
                      f: string, g: string, h: string, i: string)
    ensures a + b + c + d + e + f + g + h + i == a + (b + c + d + (e + f + g + h + i))
  {
  }

  lemma AfterLiteralOf(lit: string, rest: string)
    ensures AfterLiteral(lit, lit + rest) == Some(rest)
  {
  }

  /** The digit prefix stops at the first character that is not a digit. */
  lemma {:induction false} DigitPrefixOf(d: string, rest: string)
    requires AllDigits(d)
    requires rest == [] || !IsDigit(rest[0])
    ensures DigitPrefix(d + rest) == d
    decreases |d|
  {
    if d == [] {
      assert d + rest == rest;
    } else {
      assert (d + rest)[1..] == d[1..] + rest;
      DigitPrefixOf(d[1..], rest);
      assert [d[0]] + d[1..] == d;
    }
  }

  lemma ReadClosureOf(major: string, minor: string, revCount: nat, closure: string)
    ensures ReadClosure(major, minor, revCount, CLOSURE_INTRO + closure + TRAILER)
            == Some(Constants(major, minor, revCount, closure))
  {
    var closed := closure + TRAILER;
    assert CLOSURE_INTRO + closure + TRAILER == CLOSURE_INTRO + closed;
    AfterLiteralOf(CLOSURE_INTRO, closed);
    assert closed[|closed| - |TRAILER|..] == TRAILER;
    assert closed[..|closed| - |TRAILER|] == closure;
  }

  lemma ReadRevCountOf(major: string, minor: string, revCount: nat, closure: string)
    requires revCount <= USIZE_MAX
    ensures ReadRevCount(major, minor, REV_INTRO + DecimalText(revCount) + CLOSURE_INTRO + closure + TRAILER)
            == Some(Constants(major, minor, revCount, closure))
  {
    var rev := DecimalText(revCount);
    var tail := CLOSURE_INTRO + closure + TRAILER;
    Regroup(REV_INTRO, rev, CLOSURE_INTRO, closure, TRAILER);
    AfterLiteralOf(REV_INTRO, rev + tail);
    assert tail[0] == ';';
    DigitPrefixOf(rev, tail);
    assert (rev + tail)[|rev|..] == tail;
    ParseDecimalText(revCount);
    ReadClosureOf(major, minor, revCount, closure);
  }

  lemma ReadVersionOf(major: string, minor: string, rest: string)
    requires AllDigits(major) && AllDigits(minor)
    requires REV_INTRO <= rest
    ensures ReadVersion(major + VERSION_SEPARATOR + minor + rest) == ReadRevCount(major, minor, rest)
  {
    var afterSeparator := minor + rest;
    var afterMajor := VERSION_SEPARATOR + afterSeparator;
    assert major + VERSION_SEPARATOR + minor + rest == major + afterMajor;
    DigitPrefixOf(major, afterMajor);
    assert (major + afterMajor)[|major|..] == afterMajor;
    AfterLiteralOf(VERSION_SEPARATOR, afterSeparator);
    assert rest[0] == REV_INTRO[0] == '"';
    DigitPrefixOf(minor, rest);
    assert afterSeparator[|minor|..] == rest;
  }

  /**
   * Render loses nothing when the version components are digit strings,
   * as cargo supplies them: each value appears once, in its own constant,
   * and can be read back, the revision count as a `usize`.
   */
  lemma ReadBackRender(major: string, minor: string, revCount: nat, closure: string)
    requires AllDigits(major) && AllDigits(minor) && revCount <= USIZE_MAX
    ensures ReadBack(Render(major, minor, revCount, closure))
            == Some(Constants(major, minor, revCount, closure))
  {
    var rest := REV_INTRO + DecimalText(revCount) + CLOSURE_INTRO + closure + TRAILER;
    var afterIntro := major + VERSION_SEPARATOR + minor + rest;
    RenderRegroup(VERSION_INTRO, major, VERSION_SEPARATOR, minor, REV_INTRO,
                  DecimalText(revCount), CLOSURE_INTRO, closure, TRAILER);
    AfterLiteralOf(VERSION_INTRO, afterIntro);
    assert REV_INTRO <= rest;
    ReadVersionOf(major, minor, rest);
    ReadRevCountOf(major, minor, revCount, closure);
  }

  /**
   * Without digit-only versions the rendering can no longer be read back:
   * versions "1.2" and "3" render the same text as "1" and "2.3".
   */
  lemma VerbatimVersionsCollide(revCount: nat, closure: string)
    ensures Render("1.2", "3", revCount, closure) == Render("1", "2.3", revCount, closure)
  {
    var rev := DecimalText(revCount);
    RenderRegroup(VERSION_INTRO, "1.2", VERSION_SEPARATOR, "3", REV_INTRO, rev, CLOSURE_INTRO, closure, TRAILER);
    RenderRegroup(VERSION_INTRO, "1", VERSION_SEPARATOR, "2.3", REV_INTRO, rev, CLOSURE_INTRO, closure, TRAILER);
    assert "1.2" + VERSION_SEPARATOR + "3" == "1" + VERSION_SEPARATOR + "2.3";
  }
}
