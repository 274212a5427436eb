/** `formatRules` (tools/update-lib-configs.js lines 31-48): the configuration
    entry of every rule of a tier, folded into a rule-id-to-entry object and
    printed as JSON. */
module RuleEntries {
  import opened Wrappers
  import opened Categories
  import opened JsObject

  /** The two severities a generated config uses. */
  datatype Severity = Error | Warn {
    function Text(): string {
      match this
      case Error => "error"
      case Warn => "warn"
    }
  }

  /** A default option of a rule, kept opaque: only its JSON text matters. */
  datatype OptionValue = OptionValue(json: string)

  /** `rule.meta.docs`: the default options keyed by version tag
      (`vue2`, `vue3`), when the rule declares any. */
  datatype RuleDocs = RuleDocs(defaultOptions: Option<map<string, seq<OptionValue>>>)

  /** `rule.meta`. */
  datatype RuleMeta = RuleMeta(docs: Option<RuleDocs>)

  /** One rule of a tier: its id and its metadata. */
  datatype Rule = Rule(ruleId: string, meta: Option<RuleMeta>)

  /** A rule's config entry: the bare severity, or the array
      `[severity, ...options]`. */
  datatype ConfigEntry = Bare(severity: Severity) | WithOptions(severity: Severity, options: seq<OptionValue>)

  /** `errorCategories.has(categoryId) ? 'error' : 'warn'` (line 34). */
  function SeverityOf(categoryId: string): (s: Severity)
    ensures s == Error <==> categoryId == "base" || categoryId == "essential" || categoryId == "vue3-essential"
    ensures s == Warn <==> categoryId !in {"base", "essential", "vue3-essential"}
  {
    if categoryId in ErrorCategories then Error else Warn
  }

  /** `vue${v}` with `v = categoryId.startsWith('vue3') ? 3 : 2` (lines 38-39). */
  function VersionTag(categoryId: string): (tag: string)
    ensures tag == "vue3" <==> IsVue3(categoryId)
    ensures tag == "vue2" <==> !IsVue3(categoryId)
  {
    var v := if IsVue3(categoryId) then 3 else 2;
    assert "vue" + "3" == "vue3" && "vue" + "2" == "vue2";
    "vue" + (if v == 3 then "3" else "2")
  }

  /** `rule.meta && rule.meta.docs && rule.meta.docs.defaultOptions` (line 36). */
  function DefaultOptions(rule: Rule): Option<map<string, seq<OptionValue>>> {
    if rule.meta.Some? && rule.meta.value.docs.Some? then rule.meta.value.docs.value.defaultOptions else None
  }

  /** The default options a tier selects for a rule (lines 37-40): the entry
      under the tier's version tag. An empty array is still an entry: the
      JavaScript test `if (defaultOption)` lets it through. */
  function SelectedOptions(rule: Rule, categoryId: string): Option<seq<OptionValue>> {
    match DefaultOptions(rule)
    case None => None
    case Some(byVersion) =>
      var tag := VersionTag(categoryId);
      if tag in byVersion then Some(byVersion[tag]) else None
  }

  /** The callback of `rules.map` (lines 33-45): the entry of one rule. The
      severity is the tier's; the options, when there are any for the tier's
      version, follow it in their declared order. */
  function FormatRule(rule: Rule, categoryId: string): (e: ConfigEntry)
    ensures e.severity == SeverityOf(categoryId)
    ensures e.WithOptions? <==>
      && rule.meta.Some? && rule.meta.value.docs.Some?
      && rule.meta.value.docs.value.defaultOptions.Some?
      && VersionTag(categoryId) in rule.meta.value.docs.value.defaultOptions.value
    ensures e.WithOptions? ==>
      e.options == rule.meta.value.docs.value.defaultOptions.value[VersionTag(categoryId)]
  {
    var options := SeverityOf(categoryId);
    match SelectedOptions(rule, categoryId)
    case Some(defaultOption) => WithOptions(options, defaultOption)
    case None => Bare(options)
  }

  /** The JSON text of an entry: `"error"`, or `["warn", option, ...]`. */
  function EntryJson(e: ConfigEntry): string {
    match e
    case Bare(s) => Quote(s.Text())
    case WithOptions(s, options) => "[" + Quote(s.Text()) + OptionsJson(options) + "]"
  }

  /** The options of an array entry, each after a comma. */
  function OptionsJson(options: seq<OptionValue>): string {
    if options == [] then "" else ", " + options[0].json + OptionsJson(options[1..])
  }

  /** `rules.map(...)` (line 33): the pairs `[rule.ruleId, entry]`, in rule order. */
  function MappedRules(rules: seq<Rule>, categoryId: string): (entries: seq<(string, ConfigEntry)>)
    ensures |entries| == |rules|
    ensures forall i | 0 <= i < |rules| :: entries[i] == (rules[i].ruleId, FormatRule(rules[i], categoryId))
  {
    if rules == [] then []
    else MappedRules(rules[..|rules| - 1], categoryId) + [(rules[|rules| - 1].ruleId, FormatRule(rules[|rules| - 1], categoryId))]
  }

  /** `Object.fromEntries(rules.map(...))` (lines 32-46): the rule mapping. */
  function RuleMapping(rules: seq<Rule>, categoryId: string): seq<(string, ConfigEntry)> {
    FromEntries(MappedRules(rules, categoryId))
  }

  /** `formatRules(rules, categoryId)`: the printed rule mapping (line 47). */
  function FormatRules(rules: seq<Rule>, categoryId: string): string {
    Stringify(RuleMapping(rules, categoryId), EntryJson)
  }

  /** The last rule of the list with the given id. */
  function LastRuleWithId(rules: seq<Rule>, ruleId: string): Option<Rule> {
    if rules == [] then None
    else if rules[|rules| - 1].ruleId == ruleId then Some(rules[|rules| - 1])
    else LastRuleWithId(rules[..|rules| - 1], ruleId)
  }
}

/** What `formatRules` promises about the entries and the mapping. */
module RuleEntryProperties {
  import opened Wrappers
  import opened Categories
  import opened JsObject
  import opened RuleEntries
  import opened CategoryGraph

  /** A Vue 3 tier reads only the `vue3` default options and any other tier
      only the `vue2` ones: the entry's options come from the tier's own
      family, and a rule with options for the other family only gets the bare
      severity. */
  lemma OptionsFollowVersion(rule: Rule, categoryId: string, byVersion: map<string, seq<OptionValue>>)
    requires DefaultOptions(rule) == Some(byVersion)
    ensures var e := FormatRule(rule, categoryId);
      && (IsVue3(categoryId) ==> (e.WithOptions? <==> "vue3" in byVersion) && (e.WithOptions? ==> e.options == byVersion["vue3"]))
      && (!IsVue3(categoryId) ==> (e.WithOptions? <==> "vue2" in byVersion) && (e.WithOptions? ==> e.options == byVersion["vue2"]))
  {
  }

  /** A rule without default options, or without an entry for the tier's
      version, is configured by its bare severity. */
  lemma NoOptionsGiveBareSeverity(rule: Rule, categoryId: string)
    requires DefaultOptions(rule).None? || VersionTag(categoryId) !in DefaultOptions(rule).value
    ensures FormatRule(rule, categoryId) == Bare(SeverityOf(categoryId))
    ensures EntryJson(FormatRule(rule, categoryId)) == "\"" + SeverityOf(categoryId).Text() + "\""
  {
  }

  /** An empty default-options entry still makes an array: `[severity]`,
      not the bare severity. */
  lemma EmptyOptionsGiveSingletonArray(rule: Rule, categoryId: string)
    requires DefaultOptions(rule).Some? && VersionTag(categoryId) in DefaultOptions(rule).value
    requires DefaultOptions(rule).value[VersionTag(categoryId)] == []
    ensures FormatRule(rule, categoryId) == WithOptions(SeverityOf(categoryId), [])
    ensures EntryJson(FormatRule(rule, categoryId)) == "[\"" + SeverityOf(categoryId).Text() + "\"]"
  {
  }

  /** The printed array of an entry with options is the severity followed by
      the options, in order. */
  lemma {:induction false} OptionsJsonInOrder(options: seq<OptionValue>, i: nat)
    requires i < |options|
    ensures Occurs(", " + options[i].json, OptionsJson(options))
  {
    if i == 0 {
      assert (", " + options[0].json) <= OptionsJson(options)[0..];
    } else {
      OptionsJsonInOrder(options[1..], i - 1);
      OccursInConcat(", " + options[i].json, ", " + options[0].json, OptionsJson(options[1..]), "");
      assert OptionsJson(options) == ", " + options[0].json + OptionsJson(options[1..]) + "";
    }
  }

  /** Printing two runs of options one after the other is printing the
      first run and then the second: the options keep their declared order. */
  lemma {:induction false} OptionsJsonAppend(a: seq<OptionValue>, b: seq<OptionValue>)
    ensures OptionsJson(a + b) == OptionsJson(a) + OptionsJson(b)
  {
    if a != [] {
      assert (a + b)[0] == a[0] && (a + b)[1..] == a[1..] + b;
      OptionsJsonAppend(a[1..], b);
    } else {
      assert a + b == b;
    }
  }

  /** The entries map the same rule ids as the rules, and the last entry for an
      id is the entry of the last rule with that id. */
  lemma {:induction false} LastEntryIsLastRule(rules: seq<Rule>, categoryId: string, ruleId: string)
    ensures LastValue(MappedRules(rules, categoryId), ruleId)
         == match LastRuleWithId(rules, ruleId)
            case None => None
            case Some(rule) => Some(FormatRule(rule, categoryId))
  {
    if rules != [] {
      var prefix := rules[..|rules| - 1];
      LastEntryIsLastRule(prefix, categoryId, ruleId);
      var entries := MappedRules(rules, categoryId);
      assert entries[..|entries| - 1] == MappedRules(prefix, categoryId);
    }
  }

  /** The rule mapping's keys are exactly the ids of the rules, each once, and
      a repeated id takes the entry of its last rule, as `Object.fromEntries`
      does. */
  lemma RuleMappingContents(rules: seq<Rule>, categoryId: string, ruleId: string)
    ensures DistinctKeys(RuleMapping(rules, categoryId))
    ensures ruleId in Keys(RuleMapping(rules, categoryId)) <==> exists i | 0 <= i < |rules| :: rules[i].ruleId == ruleId
    ensures Get(RuleMapping(rules, categoryId), ruleId)
         == match LastRuleWithId(rules, ruleId)
            case None => None
            case Some(rule) => Some(FormatRule(rule, categoryId))
  {
    var entries := MappedRules(rules, categoryId);
    LastEntryIsLastRule(rules, categoryId, ruleId);
    if ruleId in Keys(entries) {
      var i :| 0 <= i < |entries| && Keys(entries)[i] == ruleId;
      assert rules[i].ruleId == ruleId;
    }
    if exists i | 0 <= i < |rules| :: rules[i].ruleId == ruleId {
      var i :| 0 <= i < |rules| && rules[i].ruleId == ruleId;
      assert Keys(entries)[i] == ruleId;
    }
  }

  /** Every entry of a tier's mapping carries the tier's severity: 'error' in
      the error tiers, 'warn' elsewhere. */
  lemma MappingSeverity(rules: seq<Rule>, categoryId: string, ruleId: string)
    requires Get(RuleMapping(rules, categoryId), ruleId).Some?
    ensures Get(RuleMapping(rules, categoryId), ruleId).value.severity
         == if categoryId in ErrorCategories then Error else Warn
  {
    RuleMappingContents(rules, categoryId, ruleId);
  }

  /** With distinct rule ids the mapping lists every rule, in order. */
  lemma DistinctRulesInOrder(rules: seq<Rule>, categoryId: string)
    requires forall i, j | 0 <= i < j < |rules| :: rules[i].ruleId != rules[j].ruleId
    ensures RuleMapping(rules, categoryId) == MappedRules(rules, categoryId)
  {
    FromDistinctEntries(MappedRules(rules, categoryId));
  }

  /** Example: a warn tier whose rule has `vue2` default options `["always"]`
      configures it as `["warn", "always"]`. */
  lemma RecommendedTakesVue2Options()
    ensures var rule := Rule("bar-style", Some(RuleMeta(Some(RuleDocs(Some(map["vue2" := [OptionValue("\"always\"")]]))))));
      EntryJson(FormatRule(rule, "recommended")) == "[\"warn\", \"always\"]"
  {
    var rule := Rule("bar-style", Some(RuleMeta(Some(RuleDocs(Some(map["vue2" := [OptionValue("\"always\"")]]))))));
    RecommendedIsVue2Warn();
    assert SelectedOptions(rule, "recommended") == Some([OptionValue("\"always\"")]);
    ArrayEntryJson(Warn, OptionValue("\"always\""));
    assert FormatRule(rule, "recommended") == WithOptions(Warn, [OptionValue("\"always\"")]);
    assert "[\"" + Warn.Text() + "\", " + "\"always\"" + "]" == "[\"warn\", \"always\"]";
  }

  /** Example: `vue3-essential` is an error tier of the Vue 3 family, so it
      takes the `vue3` options, not the `vue2` ones. */
  lemma Vue3EssentialTakesVue3Options()
    ensures var rule := Rule("bar-style", Some(RuleMeta(Some(RuleDocs(Some(map[
              "vue2" := [OptionValue("\"always\"")], "vue3" := [OptionValue("\"never\"")]]))))));
      EntryJson(FormatRule(rule, "vue3-essential")) == "[\"error\", \"never\"]"
  {
    var rule := Rule("bar-style", Some(RuleMeta(Some(RuleDocs(Some(map[
              "vue2" := [OptionValue("\"always\"")], "vue3" := [OptionValue("\"never\"")]]))))));
    assert IsVue3("vue3-essential");
    assert SelectedOptions(rule, "vue3-essential") == Some([OptionValue("\"never\"")]);
    ErrorTiers("vue3-essential");
    ArrayEntryJson(Error, OptionValue("\"never\""));
  }

  /** `recommended` is a warn tier of the Vue 2 family. */
  lemma RecommendedIsVue2Warn()
    ensures SeverityOf("recommended") == Warn && VersionTag("recommended") == "vue2"
  {
    NotPrefixAt("vue3", "recommended", 0);
    ErrorTiers("recommended");
  }

  /** The printed entry with a single option. */
  lemma ArrayEntryJson(s: Severity, option: OptionValue)
    ensures EntryJson(WithOptions(s, [option])) == "[\"" + s.Text() + "\", " + option.json + "]"
  {
    assert OptionsJson([option]) == ", " + option.json;
  }

  /** Example: `essential` with the single rule `no-foo` and no default
      options prints `{"no-foo": "error"}`. */
  lemma EssentialNoFoo()
    ensures FormatRules([Rule("no-foo", None)], "essential") == "{\"no-foo\": \"error\"}"
  {
    var rules := [Rule("no-foo", None)];
    DistinctRulesInOrder(rules, "essential");
    ErrorTiers("essential");
    assert MappedRules(rules, "essential") == [("no-foo", Bare(Error))];
    assert Members([("no-foo", Bare(Error))], EntryJson) == Quote("no-foo") + ": " + Quote("error");
  }
}
