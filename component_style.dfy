/** ComponentStyle: compiles a component's rule set into a class name, injects
    the CSS into a style sheet once per (component id, name), caches the static
    name, and injects one scoped block per registered realm. */
module ComponentStyleModel {
  import opened Runtime
  import OrderedMap
  import opened StyleSheetModel
  import opened ComponentStyleSpec

  class ComponentStyle {
    /** The imported helpers and the production flag. */
    const env: Env
    const rules: RuleSet
    const componentId: string
    const isStatic: bool
    const baseHash: int
    /** The last name the static path produced; `''` before the first. */
    var staticRulesId: string
    /** The realm map, in insertion order; empty until a realm is added. */
    var realmRules: seq<(Realm, RuleSet)>

    /** The JavaScript `Map` invariant of one entry per realm, which the realm loop's
        one block per realm relies on. */
    ghost predicate Valid()
      reads this
    {
      OrderedMap.DistinctKeys(realmRules)
    }

    /** The fields as a value. */
    ghost function Snapshot(): Component
      reads this
    {
      Component(rules, componentId, isStatic, baseHash, staticRulesId, realmRules)
    }

    /** Sets up the fields and registers `componentId` with the master sheet, which
        fixes this component's place in the CSS order. */
    constructor (env: Env, rules: RuleSet, componentId: string, master: StyleSheet)
      requires master.Valid()
      modifies master
      ensures Valid()
      ensures this.env == env && this.rules == rules && this.componentId == componentId
      ensures staticRulesId == "" && realmRules == []
      ensures isStatic <==> env.production && env.isStaticRules(rules)
      ensures baseHash == env.hash(componentId)
      ensures master.Valid() && componentId in master.ids
      ensures old(componentId in master.ids) ==> master.ids == old(master.ids)
      ensures old(componentId !in master.ids) ==> master.ids == old(master.ids) + [componentId]
      ensures master.rules == old(master.rules)
    {
      this.env := env;
      this.rules := rules;
      staticRulesId := "";
      isStatic := env.production && env.isStaticRules(rules);
      this.componentId := componentId;
      baseHash := env.hash(componentId);
      realmRules := [];
      new;
      master.RegisterId(componentId);
    }

    /** Flattens `rules` part by part into CSS while folding a hash seeded from
        `baseHash`; the hash is `null` when `baseHash` is falsy. */
    method ProduceDynamicCssRules(ctx: Ctx, stylis: Stringifier, rules: RuleSet, baseHash: Option<int>)
      returns (css: string, dynamicHash: Option<int>)
      ensures css == DynamicCss(env, rules, ctx)
      ensures dynamicHash == DynamicHash(env, stylis.hash, rules, ctx, baseHash)
      ensures dynamicHash.None? <==> !Truthy(baseHash)
    {
      dynamicHash := if Truthy(baseHash) then Some(env.phash(baseHash.value, HStr(stylis.hash))) else None;
      css := "";
      for i := 0 to |rules|
        invariant css == DynamicCss(env, rules[..i], ctx)
        invariant dynamicHash == DynamicHash(env, stylis.hash, rules[..i], ctx, baseHash)
      {
        assert rules[..i + 1][..i] == rules[..i];
        var partRule := rules[i];
        match partRule
        case Str(s) =>
          css := css + s;
          if !env.production && Truthy(baseHash) {
            dynamicHash := Some(env.phash(dynamicHash.value, HStr(s + NumberToString(i))));
          }
        case Dyn(_) =>
          var partString := Join(env.flatten(partRule, ctx));
          if Truthy(baseHash) {
            dynamicHash := Some(env.phash(dynamicHash.value, HStr(partString + NumberToString(i))));
          }
          css := css + partString;
      }
      assert rules[..|rules|] == rules;
    }

    /** Returns the class name for this component under `ctx`, injecting its CSS
        (and, on the dynamic path, every realm's block) where the sheet lacks it. */
    method GenerateAndInjectStyles(ctx: Ctx, styleSheet: StyleSheet, stylis: Stringifier) returns (name: string)
      requires Valid()
      modifies this`staticRulesId, styleSheet`rules
      ensures Valid()
      ensures var out := Generate(env, old(Snapshot()), ctx, stylis, old(styleSheet.rules));
        name == out.name && styleSheet.rules == out.sheet && Snapshot() == out.component
    {
      if isStatic && stylis.hash == "" {
        if staticRulesId != "" && styleSheet.HasNameForId(componentId, staticRulesId) {
          return staticRulesId;
        }
        var cssStatic := Join(FlattenRules(env, rules, ctx));
        name := env.generateName(ToUint32(env.phash(baseHash, HNum(Utf16Length(cssStatic)))));
        if !styleSheet.HasNameForId(componentId, name) {
          var cssStaticFormatted := stylis.stringify(cssStatic, "." + name, componentId);
          styleSheet.InsertRules(componentId, name, cssStaticFormatted);
        }
        staticRulesId := name;
        return name;
      } else {
        var css, dynamicHash := ProduceDynamicCssRules(ctx, stylis, rules, Some(baseHash));
        name := env.generateName(NullableToUint32(dynamicHash));
        if !styleSheet.HasNameForId(componentId, name) {
          var cssFormatted := stylis.stringify(css, "." + name, componentId);
          styleSheet.InsertRules(componentId, name, cssFormatted);
        }
        InjectRealmBlocks(ctx, styleSheet, stylis, name);
        return name;
      }
    }

    /** The `realmRules.forEach` loop: for each realm in order, injects the realm's
        CSS under `realm_name` with selector `.realm .name` unless already present. */
    method InjectRealmBlocks(ctx: Ctx, styleSheet: StyleSheet, stylis: Stringifier, name: string)
      modifies styleSheet`rules
      ensures styleSheet.rules == InjectRealms(env, stylis, componentId, name, ctx, realmRules, old(styleSheet.rules))
    {
      for i := 0 to |realmRules|
        invariant styleSheet.rules == InjectRealms(env, stylis, componentId, name, ctx, realmRules[..i], old(styleSheet.rules))
      {
        InjectRealmsStep(env, stylis, componentId, name, ctx, realmRules, old(styleSheet.rules), i);
        var realm := realmRules[i].0;
        var realScopeName := RealmScopeName(realm.name, name);
        if !styleSheet.HasNameForId(componentId, realScopeName) {
          var realmCss, _ := ProduceDynamicCssRules(ctx, stylis, realmRules[i].1, None);
          var cssFormatted := stylis.stringify(realmCss, RealmSelector(realm.name, name), componentId);
          styleSheet.InsertRules(componentId, realScopeName, cssFormatted);
        }
      }
      assert realmRules[..|realmRules|] == realmRules;
    }

    /** Maps `realm` to `rules`, replacing an earlier entry for that realm in place. */
    method AddRealmRuleSet(realm: Realm, rules: RuleSet)
      requires Valid()
      modifies this`realmRules
      ensures Valid()
      ensures Snapshot() == AddRealm(old(Snapshot()), realm, rules)
      ensures OrderedMap.Get(realmRules, realm) == Some(rules)
      ensures forall r :: r != realm ==> OrderedMap.Get(realmRules, r) == OrderedMap.Get(old(realmRules), r)
    {
      OrderedMap.SetDistinct(realmRules, realm, rules);
      realmRules := OrderedMap.Set(realmRules, realm, rules);
    }
  }
}
