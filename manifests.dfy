/**
 * The version-bump half of tools/sync-engine.mjs: the description text
 * written into plugin.json and marketplace.json, the copy-with-override of
 * both files, and the split of the skills into workflow and domain skills.
 *
 * JSON values are modelled as a datatype; an object is a map from keys to
 * values, so the key order `JSON.stringify` would print is not modelled.
 * Every operation returns a new value, so the input is never changed.
 */
module Manifests {
  import opened Wrappers
  import opened Text
  import opened Catalog

  datatype Json =
    | JNull
    | JBool(b: bool)
    | JNum(n: int)
    | JStr(s: string)
    | JArr(items: seq<Json>)
    | JObj(fields: map<string, Json>)

  // ---- buildDescription ----

  /** The three fixed fragments that follow, after a space, the total, the workflow count and the domain count. */
  function Fragments(short: bool): (string, string, string) {
    if short then
      ("skills: ",
       "workflow (behavioral rules that change Claude's actions) + ",
       "deep domain (specialized knowledge with 2026 best practices).")
    else
      ("expert skills for Claude Code \U{2014} ",
       "workflow skills (behavioral rules) + ",
       "deep domain skills (specialized knowledge with 2026 best practices)")
  }

  /** `buildDescription(total, workflow, domain, short)` */
  function BuildDescription(total: nat, workflow: nat, domain: nat, short: bool): string {
    var (a, b, c) := Fragments(short);
    WithCounts(total, workflow, domain, a, b, c)
  }

  /** Three counts, each followed by a space and its fragment. */
  function WithCounts(x: nat, y: nat, z: nat, a: string, b: string, c: string): string {
    NatToString(x) + ((" " + a) + (NatToString(y) + ((" " + b) + (NatToString(z) + (" " + c)))))
  }

  /** Reads the three counts back out of a description; the partner of `BuildDescription`. */
  function ReadDescription(text: string, short: bool): Option<(nat, nat, nat)> {
    var (a, b, c) := Fragments(short);
    ReadCounts(text, a, b, c)
  }

  /** Reads three digit runs separated by the given fragments, with nothing after the last fragment. */
  function ReadCounts(text: string, a: string, b: string, c: string): Option<(nat, nat, nat)> {
    var (t, r1) := SpanDigits(text);
    if t == [] || !StartsWith(r1, " " + a) then None
    else
      var (w, r2) := SpanDigits(r1[|a| + 1..]);
      if w == [] || !StartsWith(r2, " " + b) then None
      else
        var (d, r3) := SpanDigits(r2[|b| + 1..]);
        if d == [] || r3 != " " + c then None
        else Some((DecimalValue(t), DecimalValue(w), DecimalValue(d)))
  }

  /** A rendered number followed by a fragment that starts with a non-digit reads back at the fragment's end. */
  lemma NumberThen(x: nat, fragment: string, rest: string)
    ensures SpanDigits(NatToString(x) + ((" " + fragment) + rest)) == (NatToString(x), (" " + fragment) + rest)
    ensures StartsWith((" " + fragment) + rest, " " + fragment) && ((" " + fragment) + rest)[|fragment| + 1..] == rest
    ensures DecimalValue(NatToString(x)) == x
  {
    var sep := " " + fragment;
    assert sep[0] == ' ';
    SpanDigitsOf(NatToString(x), sep + rest);
    assert (sep + rest)[..|sep|] == sep;
    DecimalOfNatToString(x);
  }

  lemma ReadCountsRoundTrip(x: nat, y: nat, z: nat, a: string, b: string, c: string)
    ensures ReadCounts(WithCounts(x, y, z, a, b, c), a, b, c) == Some((x, y, z))
  {
    var r2 := NatToString(z) + (" " + c);
    var r1 := NatToString(y) + ((" " + b) + r2);
    NumberThen(x, a, r1);
    NumberThen(y, b, r2);
    NumberThen(z, c, []);
    assert (" " + c) + [] == " " + c;
  }

  /** Each description names the three counts it was built from, in order, and nothing else varies. */
  lemma DescriptionRoundTrip(total: nat, workflow: nat, domain: nat, short: bool)
    ensures ReadDescription(BuildDescription(total, workflow, domain, short), short) == Some((total, workflow, domain))
  {
    var (a, b, c) := Fragments(short);
    ReadCountsRoundTrip(total, workflow, domain, a, b, c);
  }

  // ---- object spread ----

  /**
   * The own enumerable properties `{ ...v }` copies: an object's fields, an
   * array's elements under their decimal indexes, a string's characters
   * under theirs, and nothing for any other value.
   */
  function Spread(v: Json): map<string, Json> {
    match v
    case JObj(m) => m
    case JArr(xs) => IndexKeyed(seq(|xs|, i requires 0 <= i < |xs| => xs[i]))
    case JStr(s) => IndexKeyed(seq(|s|, i requires 0 <= i < |s| => JStr([s[i]])))
    case _ => map[]
  }

  /** The elements of `xs` under their decimal indexes. */
  function IndexKeyed(xs: seq<Json>): map<string, Json> {
    NatToStringInjective();
    map i | 0 <= i < |xs| :: NatToString(i) := xs[i]
  }

  /** `{ ...v, version: newVersion, description: text }` */
  function Override(v: Json, newVersion: string, text: string): map<string, Json> {
    Spread(v)["version" := JStr(newVersion)]["description" := JStr(text)]
  }

  /** Copying with the override sets `version` and `description` and keeps every other property. */
  lemma OverrideFields(v: Json, newVersion: string, text: string)
    ensures Override(v, newVersion, text).Keys == Spread(v).Keys + {"version", "description"}
    ensures Override(v, newVersion, text)["version"] == JStr(newVersion)
    ensures Override(v, newVersion, text)["description"] == JStr(text)
    ensures forall k :: k in Spread(v) && k != "version" && k != "description" ==>
      Override(v, newVersion, text)[k] == Spread(v)[k]
  {
  }

  // ---- updatePluginJson / updateMarketplaceJson ----

  /** `updatePluginJson(original, newVersion, total, workflow, domain)` */
  function UpdatePluginJson(original: Json, newVersion: string, total: nat, workflow: nat, domain: nat): (r: map<string, Json>)
    ensures r.Keys == Spread(original).Keys + {"version", "description"}
    ensures r["version"] == JStr(newVersion)
    ensures r["description"] == JStr(BuildDescription(total, workflow, domain, false))
    ensures forall k :: k in Spread(original) && k != "version" && k != "description" ==> r[k] == Spread(original)[k]
  {
    OverrideFields(original, newVersion, BuildDescription(total, workflow, domain, false));
    Override(original, newVersion, BuildDescription(total, workflow, domain, false))
  }

  /** The new description of plugin.json reads back to the total, workflow and domain counts. */
  lemma PluginDescriptionCounts(original: Json, newVersion: string, total: nat, workflow: nat, domain: nat)
    ensures ReadDescription(UpdatePluginJson(original, newVersion, total, workflow, domain)["description"].s, false)
            == Some((total, workflow, domain))
  {
    DescriptionRoundTrip(total, workflow, domain, false);
  }

  /** What reading `original.plugins.map` throws: the `plugins` property is missing or is not an array. */
  datatype UpdateError = PluginsNotArray

  /** `original.plugins`, when it is an array. */
  function PluginsOf(original: Json): Option<seq<Json>> {
    if original.JObj? && "plugins" in original.fields && original.fields["plugins"].JArr? then
      Some(original.fields["plugins"].items)
    else
      None
  }

  /** The `map` callback: the first plugin gets the version and the short description, the others are copied. */
  function UpdatePlugins(plugins: seq<Json>, newVersion: string, total: nat, workflow: nat, domain: nat): (r: seq<Json>)
    ensures |r| == |plugins|
    ensures |r| > 0 ==> r[0] == JObj(Override(plugins[0], newVersion, BuildDescription(total, workflow, domain, true)))
    ensures forall i :: 0 < i < |r| ==> r[i] == JObj(Spread(plugins[i]))
  {
    seq(|plugins|, i requires 0 <= i < |plugins| =>
      if i != 0 then JObj(Spread(plugins[i]))
      else JObj(Override(plugins[i], newVersion, BuildDescription(total, workflow, domain, true))))
  }

  /** `updateMarketplaceJson(original, newVersion, total, workflow, domain)`; the error stands for the `TypeError`. */
  function UpdateMarketplaceJson(original: Json, newVersion: string, total: nat, workflow: nat, domain: nat): (r: Result<map<string, Json>, UpdateError>)
    ensures r.Ok? <==> PluginsOf(original).Some?
  {
    match PluginsOf(original)
    case None => Err(PluginsNotArray)
    case Some(plugins) =>
      var root := Override(original, newVersion, BuildDescription(total, workflow, domain, false));
      Ok(root["plugins" := JArr(UpdatePlugins(plugins, newVersion, total, workflow, domain))])
  }

  /**
   * On a marketplace.json with a `plugins` array the root gets the same
   * override as plugin.json, and `plugins` is replaced by the mapped array.
   */
  lemma MarketplaceRoot(original: Json, newVersion: string, total: nat, workflow: nat, domain: nat)
    requires PluginsOf(original).Some?
    ensures var r := UpdateMarketplaceJson(original, newVersion, total, workflow, domain).value;
      && r.Keys == original.fields.Keys + {"version", "description"}
      && r["version"] == JStr(newVersion)
      && r["description"] == JStr(BuildDescription(total, workflow, domain, false))
      && r["plugins"] == JArr(UpdatePlugins(PluginsOf(original).value, newVersion, total, workflow, domain))
      && (forall k :: k in original.fields && k != "version" && k != "description" && k != "plugins" ==> r[k] == original.fields[k])
  {
    var text := BuildDescription(total, workflow, domain, false);
    var plugins := JArr(UpdatePlugins(PluginsOf(original).value, newVersion, total, workflow, domain));
    MarketplaceOk(original, newVersion, total, workflow, domain);
    assert original.JObj? && Spread(original) == original.fields;
    OverrideThenPlugins(original.fields, JStr(newVersion), JStr(text), plugins);
  }

  /** On a `plugins` array the update succeeds with the root override and the mapped plugins. */
  lemma MarketplaceOk(original: Json, newVersion: string, total: nat, workflow: nat, domain: nat)
    requires PluginsOf(original).Some?
    ensures UpdateMarketplaceJson(original, newVersion, total, workflow, domain)
      == Ok(Override(original, newVersion, BuildDescription(total, workflow, domain, false))["plugins" := JArr(UpdatePlugins(PluginsOf(original).value, newVersion, total, workflow, domain))])
  {
  }

  /** Setting `version`, `description`, then `plugins` in fields that hold `plugins`: the keys and values the marketplace root ends with. */
  lemma OverrideThenPlugins(fields: map<string, Json>, version: Json, text: Json, plugins: Json)
    requires "plugins" in fields
    ensures var r := fields["version" := version]["description" := text]["plugins" := plugins];
      && r.Keys == fields.Keys + {"version", "description"}
      && r["version"] == version
      && r["description"] == text
      && r["plugins"] == plugins
      && (forall k :: k in fields && k != "version" && k != "description" && k != "plugins" ==> r[k] == fields[k])
  {
  }

  /**
   * The mapped `plugins` array keeps its length; its first plugin gets the
   * new version and the short description and keeps its other properties;
   * every later plugin that is an object is unchanged.
   */
  lemma MarketplacePlugins(plugins: seq<Json>, newVersion: string, total: nat, workflow: nat, domain: nat)
    ensures var r := UpdatePlugins(plugins, newVersion, total, workflow, domain);
      && |r| == |plugins|
      && (forall i :: 0 < i < |plugins| && plugins[i].JObj? ==> r[i] == plugins[i])
      && (|plugins| > 0 ==>
            && r[0].JObj?
            && r[0].fields.Keys == Spread(plugins[0]).Keys + {"version", "description"}
            && r[0].fields["version"] == JStr(newVersion)
            && r[0].fields["description"] == JStr(BuildDescription(total, workflow, domain, true))
            && forall k :: k in Spread(plugins[0]) && k != "version" && k != "description" ==> r[0].fields[k] == Spread(plugins[0])[k])
  {
    if |plugins| > 0 {
      OverrideFields(plugins[0], newVersion, BuildDescription(total, workflow, domain, true));
    }
  }

  // ---- the workflow / domain split ----

  /** The ids of the workflow skills; every other skill is a domain skill. */
  const WorkflowIds: set<string> := {
    "saas-strategy", "ai-agent", "clean-architecture", "frontend", "css-animation",
    "testing", "security", "data-visualization", "feature-spec", "growth-hack",
    "onboarding", "app-store-optimization", "brand-identity"
  }

  /** `meta.skills.filter((s) => WORKFLOW_IDS.has(s.id))` */
  function WorkflowSkills(skills: seq<Skill>): seq<Skill> {
    if skills == [] then []
    else WorkflowSkills(skills[..|skills| - 1]) + (if skills[|skills| - 1].id in WorkflowIds then [skills[|skills| - 1]] else [])
  }

  /**
   * The filter keeps exactly the workflow skills, so it is never longer than
   * the list (their order is what `WorkflowSkillsAppend` states).
   */
  lemma {:induction false} WorkflowSkillsAre(skills: seq<Skill>)
    ensures |WorkflowSkills(skills)| <= |skills|
    ensures forall s :: s in WorkflowSkills(skills) <==> s in skills && s.id in WorkflowIds
  {
    if skills != [] {
      var init := skills[..|skills| - 1];
      WorkflowSkillsAre(init);
      assert skills == init + [skills[|skills| - 1]];
    }
  }

  /** Counting the workflow skills of two lists one after the other adds up. */
  lemma {:induction false} WorkflowSkillsAppend(a: seq<Skill>, b: seq<Skill>)
    ensures WorkflowSkills(a + b) == WorkflowSkills(a) + WorkflowSkills(b)
  {
    if b != [] {
      var init := b[..|b| - 1];
      assert (a + b)[..|a + b| - 1] == a + init;
      assert (a + b)[|a + b| - 1] == b[|b| - 1];
      WorkflowSkillsAppend(a, init);
    } else {
      assert a + b == a;
    }
  }

  /** The three counts of lines 303-305: total, workflow and domain, with workflow + domain = total. */
  function SkillCounts(skills: seq<Skill>): (counts: (nat, nat, nat))
    ensures counts.0 == |skills| && counts.1 + counts.2 == counts.0
    ensures counts.1 == |WorkflowSkills(skills)|
    ensures (forall i :: 0 <= i < |skills| ==> skills[i].id !in WorkflowIds) ==> counts.1 == 0
    ensures (forall i :: 0 <= i < |skills| ==> skills[i].id in WorkflowIds) ==> counts.2 == 0
  {
    WorkflowSkillsAre(skills);
    NoneWorkflow(skills);
    AllWorkflow(skills);
    var workflow := |WorkflowSkills(skills)|;
    (|skills|, workflow, |skills| - workflow)
  }

  /** With no workflow skill the filter is empty. */
  lemma {:induction false} NoneWorkflow(skills: seq<Skill>)
    ensures (forall i :: 0 <= i < |skills| ==> skills[i].id !in WorkflowIds) ==> WorkflowSkills(skills) == []
  {
    if skills != [] && forall i :: 0 <= i < |skills| ==> skills[i].id !in WorkflowIds {
      var init := skills[..|skills| - 1];
      assert forall i :: 0 <= i < |init| ==> init[i] == skills[i];
      NoneWorkflow(init);
    }
  }

  /** With only workflow skills the filter keeps them all. */
  lemma {:induction false} AllWorkflow(skills: seq<Skill>)
    ensures (forall i :: 0 <= i < |skills| ==> skills[i].id in WorkflowIds) ==> WorkflowSkills(skills) == skills
  {
    if skills != [] && forall i :: 0 <= i < |skills| ==> skills[i].id in WorkflowIds {
      var init := skills[..|skills| - 1];
      assert forall i :: 0 <= i < |init| ==> init[i] == skills[i];
      AllWorkflow(init);
      assert skills == init + [skills[|skills| - 1]];
    }
  }
}
