/** `formatCategory` (tools/update-lib-configs.js lines 50-120): the text of a
    tier's config module, in the legacy or the flat shape, as a root module
    (parser and environment wiring) or as a module extending its parent tier.
    A module is modelled as its lines, each an indentation and a text;
    `Render` turns them into the exact characters of the template. Every
    template is the generated-file comment, a body, and the `rules` property
    with the closing brace; the root bodies are built from the blocks of the
    object literal they spell out. */
module ConfigModules {
  import opened Wrappers
  import opened Categories
  import opened JsObject
  import opened RuleEntries

  /** `formatCategory(category, flat)`: legacy when `flat` is false. */
  datatype Shape = Legacy | Flat

  /** A tier as the generator receives it: its id and its rules. */
  datatype Category = Category(categoryId: string, rules: seq<Rule>)

  /** One line of a module: `indent` spaces, then `text`. */
  datatype Line = Line(indent: nat, text: string)

  function Spaces(n: nat): (s: string)
    ensures |s| == n && forall i | 0 <= i < n :: s[i] == ' '
  {
    if n == 0 then "" else " " + Spaces(n - 1)
  }

  /** The characters of the lines, each ended by a newline (every template
      ends with a newline after its closing brace). */
  function Render(lines: seq<Line>): string {
    if lines == [] then "" else Spaces(lines[0].indent) + lines[0].text + "\n" + Render(lines[1..])
  }

  /** The parser package named by the root templates. */
  const ParserModule := "'vue-eslint-parser'"

  /** The generated-file comment that opens every module; its lines after the
      first are indented by `lead` spaces (one in two templates, none in the
      other two). The two long lines are each written as two joined literals:
      the characters are the same, and the verifier looks inside short
      literals only, which the proofs about the first characters of these
      lines need. */
  function HeaderLines(lead: nat): seq<Line> {
    [ Line(0, "/*"),
      Line(lead, "* IMPORTANT!"),
      Line(lead, "* This file has been " + "automatically generated,"),
      Line(lead, "* in order to update its content execute " + "\"npm run update\""),
      Line(lead, "*/") ]
  }

  /** The indentation of the comment's later lines in each template: one
      space in the flat root and the legacy extension templates, none in the
      other two. */
  function HeaderLead(parent: Option<string>, shape: Shape): (lead: nat)
    ensures lead <= 1
  {
    if parent.None? <==> shape == Flat then 1 else 0
  }

  /** The last two lines of every template: the `rules` property holding the
      output of `formatRules`, and the brace closing `module.exports`. */
  function RulesLines(indent: nat, rules: string): seq<Line> {
    [ Line(indent, "rules: " + rules),
      Line(0, "}") ]
  }

  /** The `parserOptions` block of both root templates, closed by `close`. */
  function ParserOptionsLines(indent: nat, close: string): seq<Line> {
    [ Line(indent, "parserOptions: {"),
      Line(indent + 2, "ecmaVersion: 2020,"),
      Line(indent + 2, "sourceType: 'module'"),
      Line(indent, close) ]
  }

  /** Lines 59-60: the flat root template's `require`s. */
  const FlatRequires: seq<Line> := [
    Line(0, "const globals = require('globals')"),
    Line(0, "const vueEslintParser = require(" + ParserModule + ")") ]

  /** Lines 61-63: the export and the start of `languageOptions`. */
  const FlatLanguageOptions: seq<Line> := [
    Line(0, "module.exports = {"),
    Line(2, "languageOptions: {"),
    Line(4, "parser: vueEslintParser,") ]

  /** Lines 64-67: the browser and ES2015 globals. */
  const FlatGlobals: seq<Line> := [
    Line(4, "globals: {"),
    Line(6, "...globals.browser,"),
    Line(6, "...globals.es2015"),
    Line(4, "},") ]

  /** Lines 59-72: everything of a flat root module between the comment and
      the `rules` property. */
  const RootFlatBody: seq<Line> :=
    FlatRequires + FlatLanguageOptions + FlatGlobals + ParserOptionsLines(4, "}") + [Line(2, "},")]

  /** Lines 81-82: the export and the parser. */
  const LegacyParser: seq<Line> := [
    Line(0, "module.exports = {"),
    Line(1, "parser: require.resolve(" + ParserModule + "),") ]

  /** Lines 87-90: the browser and ES6 environment. */
  const LegacyEnv: seq<Line> := [
    Line(1, "env: {"),
    Line(3, "browser: true,"),
    Line(3, "es6: true"),
    Line(1, "},") ]

  /** Lines 91-93: the `vue` plugin. */
  const LegacyPlugins: seq<Line> := [
    Line(1, "plugins: ["),
    Line(3, "'vue'"),
    Line(1, "],") ]

  /** Lines 81-93: everything of a legacy root module between the comment and
      the `rules` property. */
  const RootLegacyBody: seq<Line> :=
    LegacyParser + ParserOptionsLines(1, "},") + LegacyEnv + LegacyPlugins

  /** The start of the flat shape's reference to the parent module (line 104). */
  const FlatReference := "const extendedConfig = require('./"

  /** The start of the legacy shape's reference to the parent module (line 116). */
  const LegacyReference := "extends: require.resolve('./"

  /** Lines 104-106: the flat extension template's body. */
  function ExtensionFlatBody(parent: string): seq<Line> {
    [ Line(0, FlatReference + parent + "')"),
      Line(0, "module.exports = {"),
      Line(2, "extendedConfig,") ]
  }

  /** Lines 115-116: the legacy extension template's body. */
  function ExtensionLegacyBody(parent: string): seq<Line> {
    [ Line(0, "module.exports = {"),
      Line(2, LegacyReference + parent + "'),") ]
  }

  /** Lines 54-75: a flat root module. */
  function RootFlatLines(rules: string): seq<Line> {
    HeaderLines(1) + RootFlatBody + RulesLines(2, rules)
  }

  /** Lines 76-96: a legacy root module. */
  function RootLegacyLines(rules: string): seq<Line> {
    HeaderLines(0) + RootLegacyBody + RulesLines(1, rules)
  }

  /** Lines 99-109: a flat module extending `parent`. */
  function ExtensionFlatLines(parent: string, rules: string): seq<Line> {
    HeaderLines(0) + ExtensionFlatBody(parent) + RulesLines(2, rules)
  }

  /** Lines 110-119: a legacy module extending `parent`. */
  function ExtensionLegacyLines(parent: string, rules: string): seq<Line> {
    HeaderLines(1) + ExtensionLegacyBody(parent) + RulesLines(2, rules)
  }

  /** The template `formatCategory` fills for a tier whose parent reads as
      `parent` (lines 51-52): a root module when it reads as null, an
      extension module otherwise. */
  function TemplateLines(parent: Option<string>, shape: Shape, rules: string): seq<Line> {
    match parent
    case None => if shape == Flat then RootFlatLines(rules) else RootLegacyLines(rules)
    case Some(p) => if shape == Flat then ExtensionFlatLines(p, rules) else ExtensionLegacyLines(p, rules)
  }

  /** The lines of `formatCategory(category, shape == Flat)`: the template of
      the tier's parent (an id missing from the graph reads as null too),
      filled with the tier's `formatRules` output. */
  function ModuleLines(category: Category, shape: Shape): seq<Line> {
    TemplateLines(ParentOf(category.categoryId), shape, FormatRules(category.rules, category.categoryId))
  }

  /** `formatCategory(category, shape == Flat)`: the module's text. */
  function FormatCategory(category: Category, shape: Shape): string {
    Render(ModuleLines(category, shape))
  }
}

/** What a reader of a generated module finds in it: the parent module it
    refers to, the engine wiring it declares, and the rule mapping it embeds;
    and the lemmas tying these to the tier. */
module ConfigModuleProperties {
  import opened Wrappers
  import opened Categories
  import opened CategoryGraph
  import opened JsObject
  import opened RuleEntries
  import opened ConfigModules
  import RuleEntryProperties

  /** The parent tier a line refers to: `<parent>` in
      `const extendedConfig = require('./<parent>')` or in
      `extends: require.resolve('./<parent>'),`. */
  function ReferencedTier(line: Line): Option<string> {
    var t := line.text;
    if FlatReference <= t && |t| >= |FlatReference| + 2 && t[|t| - 2..] == "')" then
      Some(t[|FlatReference|..|t| - 2])
    else if LegacyReference <= t && |t| >= |LegacyReference| + 3 && t[|t| - 3..] == "')," then
      Some(t[|LegacyReference|..|t| - 3])
    else None
  }

  /** The first parent reference among the lines, if any. */
  function ParentReference(lines: seq<Line>): Option<string> {
    if lines == [] then None
    else if ReferencedTier(lines[0]).Some? then ReferencedTier(lines[0])
    else ParentReference(lines[1..])
  }

  /** The lines of the flat root template that wire the linting engine:
      the parser, `languageOptions` and the globals. */
  const FlatWiringTexts: set<string> := {
    "const globals = require('globals')",
    "const vueEslintParser = require(" + ParserModule + ")",
    "languageOptions: {",
    "parser: vueEslintParser,",
    "globals: {",
    "...globals.browser,",
    "...globals.es2015"
  }

  /** The parser options both root templates declare. */
  const OptionsWiringTexts: set<string> := {
    "parserOptions: {",
    "ecmaVersion: 2020,",
    "sourceType: 'module'"
  }

  /** The lines of the legacy root template that wire the linting engine:
      the parser, the environment and the plugin. */
  const LegacyWiringTexts: set<string> := {
    "parser: require.resolve(" + ParserModule + "),",
    "env: {",
    "browser: true,",
    "es6: true",
    "plugins: [",
    "'vue'"
  }

  /** Every line of a root template that wires the linting engine. */
  const WiringTexts: set<string> := FlatWiringTexts + OptionsWiringTexts + LegacyWiringTexts

  /** The text is one of the wiring lines. */
  predicate IsWiring(t: string) {
    t in WiringTexts
  }

  /** Some line of the run is a wiring line. */
  predicate HasWiring(lines: seq<Line>) {
    exists i | 0 <= i < |lines| :: IsWiring(lines[i].text)
  }

  /** The lines hold a line reading exactly `text`. */
  predicate HasLine(lines: seq<Line>, text: string) {
    exists i | 0 <= i < |lines| :: lines[i].text == text
  }

  /** The text after `rules: ` on the first line that starts with it. */
  function EmbeddedRules(lines: seq<Line>): Option<string> {
    if lines == [] then None
    else if "rules: " <= lines[0].text then Some(lines[0].text[7..])
    else EmbeddedRules(lines[1..])
  }

  /** Lines that refer to no tier and embed no rules. */
  predicate Plain(lines: seq<Line>) {
    ParentReference(lines).None? && EmbeddedRules(lines).None?
  }

  /** Reading a parent reference across two runs of lines. */
  lemma {:induction false} ParentReferenceAppend(a: seq<Line>, b: seq<Line>)
    ensures ParentReference(a + b) == if ParentReference(a).Some? then ParentReference(a) else ParentReference(b)
  {
    if a == [] {
      assert a + b == b;
    } else {
      assert (a + b)[0] == a[0] && (a + b)[1..] == a[1..] + b;
      ParentReferenceAppend(a[1..], b);
    }
  }

  /** Reading the embedded rules across two runs of lines. */
  lemma {:induction false} EmbeddedRulesAppend(a: seq<Line>, b: seq<Line>)
    ensures EmbeddedRules(a + b) == if EmbeddedRules(a).Some? then EmbeddedRules(a) else EmbeddedRules(b)
  {
    if a == [] {
      assert a + b == b;
    } else {
      assert (a + b)[0] == a[0] && (a + b)[1..] == a[1..] + b;
      EmbeddedRulesAppend(a[1..], b);
    }
  }

  /** Two runs of lines wire the engine when one of them does. */
  lemma HasWiringAppend(a: seq<Line>, b: seq<Line>)
    ensures HasWiring(a + b) <==> HasWiring(a) || HasWiring(b)
  {
    if HasWiring(a) {
      var i :| 0 <= i < |a| && IsWiring(a[i].text);
      assert (a + b)[i] == a[i];
    }
    if HasWiring(b) {
      var i :| 0 <= i < |b| && IsWiring(b[i].text);
      assert (a + b)[|a| + i] == b[i];
    }
    if HasWiring(a + b) {
      var i :| 0 <= i < |a + b| && IsWiring((a + b)[i].text);
      if i >= |a| {
        assert (a + b)[i] == b[i - |a|];
      }
    }
  }

  /** Two runs of lines hold a line when one of them does. */
  lemma HasLineAppend(a: seq<Line>, b: seq<Line>)
    ensures forall t :: HasLine(a + b, t) <==> HasLine(a, t) || HasLine(b, t)
  {
    forall t
      ensures HasLine(a + b, t) <==> HasLine(a, t) || HasLine(b, t)
    {
      if HasLine(a, t) {
        var i :| 0 <= i < |a| && a[i].text == t;
        assert (a + b)[i] == a[i];
      }
      if HasLine(b, t) {
        var i :| 0 <= i < |b| && b[i].text == t;
        assert (a + b)[|a| + i] == b[i];
      }
      if HasLine(a + b, t) {
        var i :| 0 <= i < |a + b| && (a + b)[i].text == t;
        if i >= |a| {
          assert (a + b)[i] == b[i - |a|];
        }
      }
    }
  }

  lemma PlainAppend(a: seq<Line>, b: seq<Line>)
    requires Plain(a) && Plain(b)
    ensures Plain(a + b)
  {
    ParentReferenceAppend(a, b);
    EmbeddedRulesAppend(a, b);
  }

  // The fixed lines of the templates are told apart from the reference
  // prefixes, from `rules: ` and from the wiring lines by their first
  // characters: `FlatReference` and `LegacyReference` start with `c` and `e`
  // (`const extendedConfig`, `extends:`), a `rules` line with `r`, and no
  // wiring line starts like a comment, an export, a closing bracket or a
  // reference. Each template block is then shown plain, or free of wiring,
  // one block at a time.

  /** A line that is short or starts unlike both references, and does not
      start with `r`, refers to no tier and embeds no rules. */
  lemma PlainLine(line: Line)
    requires var t := line.text;
      && |t| > 0 && t[0] != 'r'
      && (|t| < |LegacyReference| || (t[0] != 'c' && t[0] != 'e') || (t[0] == 'c' && t[6] != 'e'))
    ensures ReferencedTier(line).None?
    ensures !("rules: " <= line.text)
  {
    var t := line.text;
    if |t| >= |LegacyReference| {
      NotPrefixAt(LegacyReference, t, 0);
      if t[0] == 'c' {
        NotPrefixAt(FlatReference, t, 6);
      } else {
        NotPrefixAt(FlatReference, t, 0);
      }
    }
    if |t| >= 7 {
      NotPrefixAt("rules: ", t, 0);
    }
  }

  /** Lines none of which refers to a tier or starts with `rules: `. */
  lemma {:induction false} PlainLines(lines: seq<Line>)
    requires forall i | 0 <= i < |lines| :: ReferencedTier(lines[i]).None? && !("rules: " <= lines[i].text)
    ensures Plain(lines)
  {
    if lines != [] {
      assert forall i | 0 <= i < |lines| - 1 :: lines[1..][i] == lines[i + 1];
      PlainLines(lines[1..]);
    }
  }

  /** How a wiring line starts: never like a comment, an export, a `rules`
      line, a closing bracket, an `extends`/`extendedConfig` line or a
      `const extendedConfig` line. */
  predicate WiringStart(w: string) {
    && |w| > 1
    && w[0] != '/' && w[0] != '*' && w[0] != 'm' && w[0] != 'r' && w[0] != '}' && w[0] != ']'
    && (w[0] == 'e' ==> w[1] != 'x')
    && (w[0] == 'c' ==> |w| > 6 && w[6] != 'e')
  }

  lemma FlatWiringStarts()
    ensures forall w | w in FlatWiringTexts :: WiringStart(w)
  {
  }

  lemma OptionsWiringStarts()
    ensures forall w | w in OptionsWiringTexts :: WiringStart(w)
  {
  }

  lemma LegacyWiringStarts()
    ensures forall w | w in LegacyWiringTexts :: WiringStart(w)
  {
  }

  /** The first characters of the wiring lines. */
  lemma WiringInitials()
    ensures forall w | w in WiringTexts :: WiringStart(w)
  {
    FlatWiringStarts();
    OptionsWiringStarts();
    LegacyWiringStarts();
  }

  /** A text that starts unlike every wiring line is none of them. */
  lemma NotWiring(t: string)
    requires |t| > 0
    requires || t[0] == '/' || t[0] == '*' || t[0] == 'm' || t[0] == 'r' || t[0] == '}' || t[0] == ']'
             || (t[0] == 'e' && |t| > 1 && t[1] == 'x')
             || (t[0] == 'c' && |t| > 6 && t[6] == 'e')
    ensures !IsWiring(t)
  {
    WiringInitials();
  }

  /** Every line of the comment starts with `/` or `*`. */
  lemma HeaderStarts(lead: nat)
    ensures forall i | 0 <= i < 5 :: CommentText(HeaderLines(lead)[i].text)
  {
  }

  predicate CommentText(t: string) {
    |t| > 0 && (t[0] == '/' || t[0] == '*')
  }

  /** The comment refers to no tier and embeds no rules. */
  lemma HeaderIsPlain(lead: nat)
    ensures Plain(HeaderLines(lead))
  {
    var h := HeaderLines(lead);
    HeaderStarts(lead);
    forall i | 0 <= i < |h|
      ensures ReferencedTier(h[i]).None? && !("rules: " <= h[i].text)
    {
      CommentLine(h[i]);
    }
    PlainLines(h);
  }

  /** The comment wires nothing. */
  lemma HeaderHasNoWiring(lead: nat)
    ensures !HasWiring(HeaderLines(lead))
  {
    var h := HeaderLines(lead);
    HeaderStarts(lead);
    forall i | 0 <= i < |h|
      ensures !IsWiring(h[i].text)
    {
      CommentLine(h[i]);
    }
  }

  /** A line of the comment: it starts with `/` or `*`. */
  lemma CommentLine(line: Line)
    requires |line.text| > 0 && (line.text[0] == '/' || line.text[0] == '*')
    ensures ReferencedTier(line).None? && !("rules: " <= line.text)
    ensures !IsWiring(line.text)
  {
    PlainLine(line);
    NotWiring(line.text);
  }

  /** The `rules` line and the closing brace refer to no tier. */
  lemma RulesLinesReferToNoTier(indent: nat, rules: string)
    ensures ParentReference(RulesLines(indent, rules)).None?
  {
    var ls := RulesLines(indent, rules);
    assert ls[1..] == [Line(0, "}")] && ls[1..][1..] == [];
    assert ls[0].text[0] == 'r';
    NoReferenceIn(ls[0]);
    NoReferenceIn(ls[1]);
    assert ParentReference(ls[1..]).None?;
  }

  /** The `rules` line embeds the rules. */
  lemma RulesLinesEmbedRules(indent: nat, rules: string)
    ensures EmbeddedRules(RulesLines(indent, rules)) == Some(rules)
  {
    var t := RulesLines(indent, rules)[0].text;
    assert "rules: " <= t && t[7..] == rules;
  }

  /** The `rules` line and the closing brace wire nothing. */
  lemma RulesLinesHaveNoWiring(indent: nat, rules: string)
    ensures !HasWiring(RulesLines(indent, rules))
  {
    var ls := RulesLines(indent, rules);
    assert ls[0].text[0] == 'r';
    NotWiring(ls[0].text);
    NotWiring(ls[1].text);
  }

  /** A line that is short or starts unlike both references refers to no tier. */
  lemma NoReferenceIn(line: Line)
    requires var t := line.text;
      || |t| < |LegacyReference|
      || (t[0] != 'c' && t[0] != 'e')
      || (t[0] == 'c' && t[6] != 'e')
    ensures ReferencedTier(line).None?
  {
    var t := line.text;
    if |t| >= |LegacyReference| {
      NotPrefixAt(LegacyReference, t, 0);
      if t[0] == 'c' {
        NotPrefixAt(FlatReference, t, 6);
      } else {
        NotPrefixAt(FlatReference, t, 0);
      }
    }
  }

  /** The parser options block declares ECMAScript 2020 modules. */
  lemma ParserOptionsDeclared(indent: nat, close: string)
    ensures HasLine(ParserOptionsLines(indent, close), "parserOptions: {")
    ensures HasLine(ParserOptionsLines(indent, close), "ecmaVersion: 2020,")
    ensures HasLine(ParserOptionsLines(indent, close), "sourceType: 'module'")
  {
    var ls := ParserOptionsLines(indent, close);
    assert ls[0].text == "parserOptions: {";
    assert ls[1].text == "ecmaVersion: 2020,";
    assert ls[2].text == "sourceType: 'module'";
  }

  /** The text of a line that is neither a reference nor a `rules` line:
      it does not start with `r`, and it is short or starts unlike both
      references. */
  predicate PlainText(t: string) {
    && |t| > 0 && t[0] != 'r'
    && (|t| < |LegacyReference| || (t[0] != 'c' && t[0] != 'e') || (t[0] == 'c' && t[6] != 'e'))
  }

  /** Lines whose texts are all plain refer to no tier and embed no rules. */
  lemma PlainTexts(lines: seq<Line>)
    requires forall i | 0 <= i < |lines| :: PlainText(lines[i].text)
    ensures Plain(lines)
  {
    forall i | 0 <= i < |lines|
      ensures ReferencedTier(lines[i]).None? && !("rules: " <= lines[i].text)
    {
      PlainLine(lines[i]);
    }
    PlainLines(lines);
  }

  lemma FlatRequiresArePlain()
    ensures Plain(FlatRequires)
  {
    PlainTexts(FlatRequires);
  }

  lemma FlatLanguageOptionsArePlain()
    ensures Plain(FlatLanguageOptions)
  {
    PlainTexts(FlatLanguageOptions);
  }

  lemma FlatGlobalsArePlain()
    ensures Plain(FlatGlobals)
  {
    PlainTexts(FlatGlobals);
  }

  lemma ParserOptionsArePlain(indent: nat, close: string)
    requires close == "}" || close == "},"
    ensures Plain(ParserOptionsLines(indent, close))
  {
    PlainTexts(ParserOptionsLines(indent, close));
  }

  lemma ClosingBraceIsPlain(indent: nat, close: string)
    requires close == "}" || close == "},"
    ensures Plain([Line(indent, close)])
  {
    PlainTexts([Line(indent, close)]);
  }

  /** The start of `languageOptions` names the parser. */
  lemma FlatLanguageOptionsDeclared()
    ensures HasLine(FlatLanguageOptions, "parser: vueEslintParser,")
  {
    assert FlatLanguageOptions[2].text == "parser: vueEslintParser,";
  }

  /** The globals block names the browser and ES2015 globals. */
  lemma FlatGlobalsDeclared()
    ensures HasLine(FlatGlobals, "...globals.browser,")
    ensures HasLine(FlatGlobals, "...globals.es2015")
  {
    assert FlatGlobals[1].text == "...globals.browser,";
    assert FlatGlobals[2].text == "...globals.es2015";
  }

  /** The body of a flat root module refers to no tier and embeds no rules. */
  lemma RootFlatBodyIsPlain()
    ensures Plain(RootFlatBody)
  {
    var options := ParserOptionsLines(4, "}");
    var close := [Line(2, "},")];
    FlatRequiresArePlain();
    FlatLanguageOptionsArePlain();
    FlatGlobalsArePlain();
    ParserOptionsArePlain(4, "}");
    ClosingBraceIsPlain(2, "},");
    var a := FlatRequires + FlatLanguageOptions;
    var b := a + FlatGlobals;
    var c := b + options;
    PlainAppend(FlatRequires, FlatLanguageOptions);
    PlainAppend(a, FlatGlobals);
    PlainAppend(b, options);
    PlainAppend(c, close);
  }

  /** The body of a flat root module declares the parser, its options and
      the globals. */
  lemma RootFlatBodyDeclared()
    ensures HasLine(RootFlatBody, "parser: vueEslintParser,")
    ensures HasLine(RootFlatBody, "parserOptions: {")
    ensures HasLine(RootFlatBody, "ecmaVersion: 2020,")
    ensures HasLine(RootFlatBody, "sourceType: 'module'")
    ensures HasLine(RootFlatBody, "...globals.browser,")
    ensures HasLine(RootFlatBody, "...globals.es2015")
  {
    var options := ParserOptionsLines(4, "}");
    var close := [Line(2, "},")];
    FlatLanguageOptionsDeclared();
    FlatGlobalsDeclared();
    ParserOptionsDeclared(4, "}");
    var a := FlatRequires + FlatLanguageOptions;
    var b := a + FlatGlobals;
    var c := b + options;
    HasLineAppend(FlatRequires, FlatLanguageOptions);
    HasLineAppend(a, FlatGlobals);
    HasLineAppend(b, options);
    HasLineAppend(c, close);
  }

  lemma LegacyParserIsPlain()
    ensures Plain(LegacyParser)
  {
    PlainTexts(LegacyParser);
  }

  lemma LegacyEnvIsPlain()
    ensures Plain(LegacyEnv)
  {
    PlainTexts(LegacyEnv);
  }

  lemma LegacyPluginsArePlain()
    ensures Plain(LegacyPlugins)
  {
    PlainTexts(LegacyPlugins);
  }

  /** The export of a legacy root module names the parser. */
  lemma LegacyParserDeclared()
    ensures HasLine(LegacyParser, "parser: require.resolve(" + ParserModule + "),")
  {
    assert LegacyParser[1].text == "parser: require.resolve(" + ParserModule + "),";
  }

  /** The environment block names the browser and ES6. */
  lemma LegacyEnvDeclared()
    ensures HasLine(LegacyEnv, "browser: true,")
    ensures HasLine(LegacyEnv, "es6: true")
  {
    assert LegacyEnv[1].text == "browser: true,";
    assert LegacyEnv[2].text == "es6: true";
  }

  /** The body of a legacy root module refers to no tier and embeds no
      rules. */
  lemma RootLegacyBodyIsPlain()
    ensures Plain(RootLegacyBody)
  {
    var options := ParserOptionsLines(1, "},");
    LegacyParserIsPlain();
    ParserOptionsArePlain(1, "},");
    LegacyEnvIsPlain();
    LegacyPluginsArePlain();
    var a := LegacyParser + options;
    var b := a + LegacyEnv;
    PlainAppend(LegacyParser, options);
    PlainAppend(a, LegacyEnv);
    PlainAppend(b, LegacyPlugins);
  }

  /** The body of a legacy root module declares the parser, its options and
      the environment. */
  lemma RootLegacyBodyDeclared()
    ensures HasLine(RootLegacyBody, "parser: require.resolve(" + ParserModule + "),")
    ensures HasLine(RootLegacyBody, "parserOptions: {")
    ensures HasLine(RootLegacyBody, "ecmaVersion: 2020,")
    ensures HasLine(RootLegacyBody, "sourceType: 'module'")
    ensures HasLine(RootLegacyBody, "browser: true,")
    ensures HasLine(RootLegacyBody, "es6: true")
  {
    var options := ParserOptionsLines(1, "},");
    LegacyParserDeclared();
    ParserOptionsDeclared(1, "},");
    LegacyEnvDeclared();
    var a := LegacyParser + options;
    var b := a + LegacyEnv;
    HasLineAppend(LegacyParser, options);
    HasLineAppend(a, LegacyEnv);
    HasLineAppend(b, LegacyPlugins);
  }

  /** Lines none of which starts with `rules: ` embed no rules. */
  lemma {:induction false} NoRulesLines(lines: seq<Line>)
    requires forall i | 0 <= i < |lines| :: !("rules: " <= lines[i].text)
    ensures EmbeddedRules(lines).None?
  {
    if lines != [] {
      assert forall i | 0 <= i < |lines| - 1 :: lines[1..][i] == lines[i + 1];
      NoRulesLines(lines[1..]);
    }
  }

  /** The first line of a flat extension body refers to `parent`. */
  lemma ExtensionFlatBodyRefersToParent(parent: string)
    ensures ParentReference(ExtensionFlatBody(parent)) == Some(parent)
  {
    var t := ExtensionFlatBody(parent)[0].text;
    assert FlatReference <= t && t[|t| - 2..] == "')" && t[|FlatReference|..|t| - 2] == parent;
  }

  /** A flat extension body embeds no rules. */
  lemma ExtensionFlatBodyHasNoRules(parent: string)
    ensures EmbeddedRules(ExtensionFlatBody(parent)).None?
  {
    var b := ExtensionFlatBody(parent);
    assert b[0].text[0] == 'c';
    NotPrefixAt("rules: ", b[0].text, 0);
    NotPrefixAt("rules: ", b[1].text, 0);
    NotPrefixAt("rules: ", b[2].text, 0);
    NoRulesLines(b);
  }

  /** The lines of the extension bodies other than the references wire
      nothing. */
  lemma ExtensionLinesAreNotWiring()
    ensures !IsWiring("module.exports = {")
    ensures !IsWiring("extendedConfig,")
  {
    NotWiring("module.exports = {");
    NotWiring("extendedConfig,");
  }

  /** A text whose seventh character follows `const ` with `e` is no wiring
      line. */
  lemma NotWiringConst(t: string)
    requires |t| > 6 && t[0] == 'c' && t[6] == 'e'
    ensures !IsWiring(t)
  {
    NotWiring(t);
  }

  /** A text starting with `ex` is no wiring line. */
  lemma NotWiringEx(t: string)
    requires |t| > 1 && t[0] == 'e' && t[1] == 'x'
    ensures !IsWiring(t)
  {
    NotWiring(t);
  }

  /** The flat reference to a parent is no wiring line. */
  lemma FlatReferenceIsNotWiring(parent: string)
    ensures !IsWiring(FlatReference + parent + "')")
  {
    var t := FlatReference + parent + "')";
    assert t[0] == 'c' && t[6] == 'e';
    NotWiringConst(t);
  }

  /** The legacy reference to a parent is no wiring line. */
  lemma LegacyReferenceIsNotWiring(parent: string)
    ensures !IsWiring(LegacyReference + parent + "'),")
  {
    var t := LegacyReference + parent + "'),";
    assert t[0] == 'e' && t[1] == 'x';
    NotWiringEx(t);
  }

  /** A flat extension body wires nothing. */
  lemma ExtensionFlatBodyHasNoWiring(parent: string)
    ensures !HasWiring(ExtensionFlatBody(parent))
  {
    var b := ExtensionFlatBody(parent);
    FlatReferenceIsNotWiring(parent);
    ExtensionLinesAreNotWiring();
    assert b[1].text == "module.exports = {" && b[2].text == "extendedConfig,";
  }

  /** The second line of a legacy extension body refers to `parent`. */
  lemma ExtensionLegacyBodyRefersToParent(parent: string)
    ensures ParentReference(ExtensionLegacyBody(parent)) == Some(parent)
  {
    var b := ExtensionLegacyBody(parent);
    NoReferenceIn(b[0]);
    var t := b[1].text;
    NotPrefixAt(FlatReference, t, 0);
    assert LegacyReference <= t && t[|t| - 3..] == "')," && t[|LegacyReference|..|t| - 3] == parent;
    assert b[1..] == [b[1]];
  }

  /** A legacy extension body embeds no rules. */
  lemma ExtensionLegacyBodyHasNoRules(parent: string)
    ensures EmbeddedRules(ExtensionLegacyBody(parent)).None?
  {
    var b := ExtensionLegacyBody(parent);
    assert b[1].text[0] == 'e';
    NotPrefixAt("rules: ", b[0].text, 0);
    NotPrefixAt("rules: ", b[1].text, 0);
    NoRulesLines(b);
  }

  /** A legacy extension body wires nothing. */
  lemma ExtensionLegacyBodyHasNoWiring(parent: string)
    ensures !HasWiring(ExtensionLegacyBody(parent))
  {
    var b := ExtensionLegacyBody(parent);
    LegacyReferenceIsNotWiring(parent);
    ExtensionLinesAreNotWiring();
    assert b[0].text == "module.exports = {";
  }

  /** No line of a flat root module refers to a tier. */
  lemma RootFlatRefersToNoTier(rules: string)
    ensures ParentReference(RootFlatLines(rules)).None?
  {
    HeaderIsPlain(1);
    RootFlatBodyIsPlain();
    RulesLinesReferToNoTier(2, rules);
    ParentReferenceAppend(HeaderLines(1), RootFlatBody);
    ParentReferenceAppend(HeaderLines(1) + RootFlatBody, RulesLines(2, rules));
  }

  /** A flat root module embeds `rules`. */
  lemma RootFlatEmbedsRules(rules: string)
    ensures EmbeddedRules(RootFlatLines(rules)) == Some(rules)
  {
    HeaderIsPlain(1);
    RootFlatBodyIsPlain();
    RulesLinesEmbedRules(2, rules);
    EmbeddedRulesAppend(HeaderLines(1), RootFlatBody);
    EmbeddedRulesAppend(HeaderLines(1) + RootFlatBody, RulesLines(2, rules));
  }

  /** A flat root module declares the parser, its options and the browser and
      ES2015 globals. */
  lemma RootFlatWiresEngine(rules: string)
    ensures var ls := RootFlatLines(rules);
      && HasLine(ls, "parser: vueEslintParser,")
      && HasLine(ls, "parserOptions: {")
      && HasLine(ls, "ecmaVersion: 2020,")
      && HasLine(ls, "sourceType: 'module'")
      && HasLine(ls, "...globals.browser,")
      && HasLine(ls, "...globals.es2015")
  {
    RootFlatBodyDeclared();
    HasLineAppend(HeaderLines(1), RootFlatBody);
    HasLineAppend(HeaderLines(1) + RootFlatBody, RulesLines(2, rules));
  }

  /** No line of a legacy root module refers to a tier. */
  lemma RootLegacyRefersToNoTier(rules: string)
    ensures ParentReference(RootLegacyLines(rules)).None?
  {
    HeaderIsPlain(0);
    RootLegacyBodyIsPlain();
    RulesLinesReferToNoTier(1, rules);
    ParentReferenceAppend(HeaderLines(0), RootLegacyBody);
    ParentReferenceAppend(HeaderLines(0) + RootLegacyBody, RulesLines(1, rules));
  }

  /** A legacy root module embeds `rules`. */
  lemma RootLegacyEmbedsRules(rules: string)
    ensures EmbeddedRules(RootLegacyLines(rules)) == Some(rules)
  {
    HeaderIsPlain(0);
    RootLegacyBodyIsPlain();
    RulesLinesEmbedRules(1, rules);
    EmbeddedRulesAppend(HeaderLines(0), RootLegacyBody);
    EmbeddedRulesAppend(HeaderLines(0) + RootLegacyBody, RulesLines(1, rules));
  }

  /** A legacy root module declares the parser, its options and the browser
      and ES6 environment. */
  lemma RootLegacyWiresEngine(rules: string)
    ensures var ls := RootLegacyLines(rules);
      && HasLine(ls, "parser: require.resolve(" + ParserModule + "),")
      && HasLine(ls, "parserOptions: {")
      && HasLine(ls, "ecmaVersion: 2020,")
      && HasLine(ls, "sourceType: 'module'")
      && HasLine(ls, "browser: true,")
      && HasLine(ls, "es6: true")
  {
    RootLegacyBodyDeclared();
    HasLineAppend(HeaderLines(0), RootLegacyBody);
    HasLineAppend(HeaderLines(0) + RootLegacyBody, RulesLines(1, rules));
  }

  /** A flat extension module refers to `parent`. */
  lemma ExtensionFlatRefersToParent(parent: string, rules: string)
    ensures ParentReference(ExtensionFlatLines(parent, rules)) == Some(parent)
  {
    HeaderIsPlain(0);
    ExtensionFlatBodyRefersToParent(parent);
    ParentReferenceAppend(HeaderLines(0), ExtensionFlatBody(parent));
    ParentReferenceAppend(HeaderLines(0) + ExtensionFlatBody(parent), RulesLines(2, rules));
  }

  /** A flat extension module embeds `rules`. */
  lemma ExtensionFlatEmbedsRules(parent: string, rules: string)
    ensures EmbeddedRules(ExtensionFlatLines(parent, rules)) == Some(rules)
  {
    HeaderIsPlain(0);
    ExtensionFlatBodyHasNoRules(parent);
    RulesLinesEmbedRules(2, rules);
    EmbeddedRulesAppend(HeaderLines(0), ExtensionFlatBody(parent));
    EmbeddedRulesAppend(HeaderLines(0) + ExtensionFlatBody(parent), RulesLines(2, rules));
  }

  /** A flat extension module has no wiring line. */
  lemma ExtensionFlatHasNoWiring(parent: string, rules: string)
    ensures !HasWiring(ExtensionFlatLines(parent, rules))
  {
    HeaderHasNoWiring(0);
    ExtensionFlatBodyHasNoWiring(parent);
    RulesLinesHaveNoWiring(2, rules);
    HasWiringAppend(HeaderLines(0), ExtensionFlatBody(parent));
    HasWiringAppend(HeaderLines(0) + ExtensionFlatBody(parent), RulesLines(2, rules));
  }

  /** A legacy extension module refers to `parent`. */
  lemma ExtensionLegacyRefersToParent(parent: string, rules: string)
    ensures ParentReference(ExtensionLegacyLines(parent, rules)) == Some(parent)
  {
    HeaderIsPlain(1);
    ExtensionLegacyBodyRefersToParent(parent);
    ParentReferenceAppend(HeaderLines(1), ExtensionLegacyBody(parent));
    ParentReferenceAppend(HeaderLines(1) + ExtensionLegacyBody(parent), RulesLines(2, rules));
  }

  /** A legacy extension module embeds `rules`. */
  lemma ExtensionLegacyEmbedsRules(parent: string, rules: string)
    ensures EmbeddedRules(ExtensionLegacyLines(parent, rules)) == Some(rules)
  {
    HeaderIsPlain(1);
    ExtensionLegacyBodyHasNoRules(parent);
    RulesLinesEmbedRules(2, rules);
    EmbeddedRulesAppend(HeaderLines(1), ExtensionLegacyBody(parent));
    EmbeddedRulesAppend(HeaderLines(1) + ExtensionLegacyBody(parent), RulesLines(2, rules));
  }

  /** A legacy extension module has no wiring line. */
  lemma ExtensionLegacyHasNoWiring(parent: string, rules: string)
    ensures !HasWiring(ExtensionLegacyLines(parent, rules))
  {
    HeaderHasNoWiring(1);
    ExtensionLegacyBodyHasNoWiring(parent);
    RulesLinesHaveNoWiring(2, rules);
    HasWiringAppend(HeaderLines(1), ExtensionLegacyBody(parent));
    HasWiringAppend(HeaderLines(1) + ExtensionLegacyBody(parent), RulesLines(2, rules));
  }

  /** `parserOptions: {` is a wiring line. */
  lemma OptionsAreWiring()
    ensures IsWiring("parserOptions: {")
  {
    assert "parserOptions: {" in OptionsWiringTexts;
  }

  /** A template refers to exactly the parent it was filled for: to none for
      a root template, to `./<parent>` otherwise, in either shape. */
  lemma TemplateRefersToParent(parent: Option<string>, shape: Shape, rules: string)
    ensures ParentReference(TemplateLines(parent, shape, rules)) == parent
  {
    match parent
    case None =>
      if shape == Flat { RootFlatRefersToNoTier(rules); } else { RootLegacyRefersToNoTier(rules); }
    case Some(p) =>
      if shape == Flat { ExtensionFlatRefersToParent(p, rules); } else { ExtensionLegacyRefersToParent(p, rules); }
  }

  /** A template wires the engine exactly when it is a root template, and a
      root template declares ECMAScript 2020 modules. */
  lemma TemplateWiring(parent: Option<string>, shape: Shape, rules: string)
    ensures HasWiring(TemplateLines(parent, shape, rules)) <==> parent.None?
    ensures parent.None? ==>
      && HasLine(TemplateLines(parent, shape, rules), "parserOptions: {")
      && HasLine(TemplateLines(parent, shape, rules), "ecmaVersion: 2020,")
      && HasLine(TemplateLines(parent, shape, rules), "sourceType: 'module'")
  {
    var ls := TemplateLines(parent, shape, rules);
    match parent
    case None =>
      if shape == Flat { RootFlatWiresEngine(rules); } else { RootLegacyWiresEngine(rules); }
      OptionsAreWiring();
      var i :| 0 <= i < |ls| && ls[i].text == "parserOptions: {";
      assert IsWiring(ls[i].text);
    case Some(p) =>
      if shape == Flat { ExtensionFlatHasNoWiring(p, rules); } else { ExtensionLegacyHasNoWiring(p, rules); }
  }

  /** Every template embeds the rules text it was filled with. */
  lemma TemplateEmbedsRules(parent: Option<string>, shape: Shape, rules: string)
    ensures EmbeddedRules(TemplateLines(parent, shape, rules)) == Some(rules)
  {
    match parent
    case None =>
      if shape == Flat { RootFlatEmbedsRules(rules); } else { RootLegacyEmbedsRules(rules); }
    case Some(p) =>
      if shape == Flat { ExtensionFlatEmbedsRules(p, rules); } else { ExtensionLegacyEmbedsRules(p, rules); }
  }

  /** Rendering lines one after the other. */
  lemma {:induction false} RenderAppend(a: seq<Line>, b: seq<Line>)
    ensures Render(a + b) == Render(a) + Render(b)
  {
    if a == [] {
      assert a + b == b;
    } else {
      assert (a + b)[0] == a[0] && (a + b)[1..] == a[1..] + b;
      RenderAppend(a[1..], b);
    }
  }

  /** The `rules` lines rendered: the property, a newline, the closing brace
      and a final newline. */
  lemma RenderRulesLines(indent: nat, rules: string)
    ensures Render(RulesLines(indent, rules)) == Spaces(indent) + ("rules: " + rules + "\n}\n")
  {
    var ls := RulesLines(indent, rules);
    assert ls[1..] == [Line(0, "}")] && ls[1..][1..] == [];
    assert Render(ls[1..]) == "}\n";
  }

  /** The start of a concatenation of three is its first part. */
  lemma PrefixOfConcat(a: string, b: string, c: string)
    ensures a <= a + b + c
  {
    assert a <= a + b;
  }

  /** `text.endsWith(tail)`. */
  predicate EndsWith(text: string, tail: string) {
    |tail| <= |text| && text[|text| - |tail|..] == tail
  }

  /** The end of a concatenation of three is its last part. */
  lemma SuffixOfConcat(a: string, b: string, c: string)
    ensures EndsWith(a + b + c, c)
  {
    assert (a + b + c)[|a + b + c| - |c|..] == c;
  }

  /** Rendering three runs of lines one after the other. */
  lemma RenderAppend3(a: seq<Line>, b: seq<Line>, c: seq<Line>)
    ensures Render(a + b + c) == Render(a) + Render(b) + Render(c)
  {
    RenderAppend(a + b, c);
    RenderAppend(a, b);
  }

  /** The text of a comment, a body and the `rules` lines starts with the
      rendered comment. */
  lemma FramedTextStart(header: seq<Line>, body: seq<Line>, closing: seq<Line>)
    ensures Render(header) <= Render(header + body + closing)
  {
    RenderAppend3(header, body, closing);
    PrefixOfConcat(Render(header), Render(body), Render(closing));
  }

  /** The rendered lines followed by the `rules` lines. */
  lemma RenderWithRules(front: seq<Line>, indent: nat, rules: string)
    ensures Render(front + RulesLines(indent, rules))
         == Render(front) + Spaces(indent) + ("rules: " + rules + "\n}\n")
  {
    RenderAppend(front, RulesLines(indent, rules));
    RenderRulesLines(indent, rules);
  }

  /** The text of a comment, a body and the `rules` lines ends with the
      `rules` property and the closing brace. */
  lemma FramedTextEnd(front: seq<Line>, indent: nat, rules: string)
    ensures EndsWith(Render(front + RulesLines(indent, rules)), "rules: " + rules + "\n}\n")
  {
    RenderWithRules(front, indent, rules);
    SuffixOfConcat(Render(front), Spaces(indent), "rules: " + rules + "\n}\n");
  }

  /** Every template's text begins with the rendered generated-file comment,
      with the template's own indentation. */
  lemma TemplateStartsWithHeader(parent: Option<string>, shape: Shape, rules: string)
    ensures Render(HeaderLines(HeaderLead(parent, shape))) <= Render(TemplateLines(parent, shape, rules))
  {
    var header := HeaderLines(HeaderLead(parent, shape));
    match parent
    case None =>
      if shape == Flat {
        FramedTextStart(header, RootFlatBody, RulesLines(2, rules));
      } else {
        FramedTextStart(header, RootLegacyBody, RulesLines(1, rules));
      }
    case Some(p) =>
      if shape == Flat {
        FramedTextStart(header, ExtensionFlatBody(p), RulesLines(2, rules));
      } else {
        FramedTextStart(header, ExtensionLegacyBody(p), RulesLines(2, rules));
      }
  }

  /** Every template's text ends with the rules text and the closing brace. */
  lemma TemplateEndsWithRules(parent: Option<string>, shape: Shape, rules: string)
    ensures EndsWith(Render(TemplateLines(parent, shape, rules)), "rules: " + rules + "\n}\n")
  {
    var header := HeaderLines(HeaderLead(parent, shape));
    match parent
    case None =>
      if shape == Flat {
        FramedTextEnd(header + RootFlatBody, 2, rules);
      } else {
        FramedTextEnd(header + RootLegacyBody, 1, rules);
      }
    case Some(p) =>
      if shape == Flat {
        FramedTextEnd(header + ExtensionFlatBody(p), 2, rules);
      } else {
        FramedTextEnd(header + ExtensionLegacyBody(p), 2, rules);
      }
  }


  /** A module of a tier refers to exactly the tier's parent: to none when the
      parent reads as null (`base`, or an id missing from the graph), to
      `./<parent>` otherwise, in either shape. */
  lemma ModuleRefersToParent(category: Category, shape: Shape)
    ensures ParentReference(ModuleLines(category, shape)) == ParentOf(category.categoryId)
  {
    TemplateRefersToParent(ParentOf(category.categoryId), shape, FormatRules(category.rules, category.categoryId));
  }

  /** Root and extension modules are exclusive: a module wires the engine
      (parser, parser options, environment) exactly when the tier's parent
      reads as null, and then it declares ECMAScript 2020 modules. */
  lemma WiringOnlyInRootModules(category: Category, shape: Shape)
    ensures HasWiring(ModuleLines(category, shape)) <==> ParentOf(category.categoryId).None?
    ensures ParentOf(category.categoryId).None? ==>
      && HasLine(ModuleLines(category, shape), "parserOptions: {")
      && HasLine(ModuleLines(category, shape), "ecmaVersion: 2020,")
      && HasLine(ModuleLines(category, shape), "sourceType: 'module'")
  {
    TemplateWiring(ParentOf(category.categoryId), shape, FormatRules(category.rules, category.categoryId));
  }

  /** Both shapes of a tier embed the same text, `formatRules(rules, id)`: the
      legacy and the flat module carry the same rule mapping. */
  lemma SameRulesInBothShapes(category: Category)
    ensures EmbeddedRules(ModuleLines(category, Legacy)) == EmbeddedRules(ModuleLines(category, Flat))
    ensures EmbeddedRules(ModuleLines(category, Flat)) == Some(FormatRules(category.rules, category.categoryId))
  {
    var parent := ParentOf(category.categoryId);
    var rules := FormatRules(category.rules, category.categoryId);
    TemplateEmbedsRules(parent, Legacy, rules);
    TemplateEmbedsRules(parent, Flat, rules);
  }

  /** Every module begins with the rendered generated-file comment, which
      says to run "npm run update": its lines after the first are led by one
      space in the flat root and the legacy extension modules, by none in the
      other two. */
  lemma ModuleStartsWithHeader(category: Category, shape: Shape)
    ensures Render(HeaderLines(HeaderLead(ParentOf(category.categoryId), shape))) <= FormatCategory(category, shape)
  {
    TemplateStartsWithHeader(ParentOf(category.categoryId), shape, FormatRules(category.rules, category.categoryId));
  }

  /** Every module ends with its tier's rules and the closing brace. */
  lemma ModuleEndsWithRules(category: Category, shape: Shape)
    ensures EndsWith(FormatCategory(category, shape), "rules: " + FormatRules(category.rules, category.categoryId) + "\n}\n")
  {
    TemplateEndsWithRules(ParentOf(category.categoryId), shape, FormatRules(category.rules, category.categoryId));
  }

  /** A referenced parent is itself a tier of the graph, of the same version
      family unless it is `base`. */
  lemma ReferencedParentIsTier(category: Category, shape: Shape)
    requires ParentReference(ModuleLines(category, shape)).Some?
    ensures var p := ParentReference(ModuleLines(category, shape)).value;
      && p in ExtendsCategories
      && (p == "base" || (IsVue3(p) <==> IsVue3(category.categoryId)))
  {
    ModuleRefersToParent(category, shape);
    ParentsAreTiers(category.categoryId);
    ParentStaysInFamily(category.categoryId);
  }

  /** An id missing from the graph is rendered as a root module, not
      rejected. */
  lemma UnknownTierIsRoot(category: Category, shape: Shape)
    requires category.categoryId !in ExtendsCategories
    ensures ParentReference(ModuleLines(category, shape)).None?
    ensures HasWiring(ModuleLines(category, shape))
  {
    ModuleRefersToParent(category, shape);
    WiringOnlyInRootModules(category, shape);
  }

  /** Example: the flat module of `essential` with the single rule `no-foo`
      refers to `./base` and embeds `{"no-foo": "error"}`. */
  lemma EssentialFlatModule()
    ensures var m := ModuleLines(Category("essential", [Rule("no-foo", None)]), Flat);
      && ParentReference(m) == Some("base")
      && EmbeddedRules(m) == Some("{\"no-foo\": \"error\"}")
  {
    var c := Category("essential", [Rule("no-foo", None)]);
    CategoryGraph.ParentsOfTiers();
    ModuleRefersToParent(c, Flat);
    SameRulesInBothShapes(c);
    RuleEntryProperties.EssentialNoFoo();
  }
}
