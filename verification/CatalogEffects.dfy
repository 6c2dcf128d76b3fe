/** Which entries a model gets in the host catalog (src/model-config.ts), what
    each offers, and how entries and variants are named, spelled out. */
module CatalogEffects {

  import opened Decimal
  import opened Catalog

  predicate FastVariant(v: Variant) {
    exists i | 0 <= i < |v.params| :: v.params[i].id == "fast" && v.params[i].value == "true"
  }

  /** The variant has a context of its own: one million tokens, or in max mode one
      that is not the model's. */
  predicate OwnContext(m: Model, v: Variant) {
    v.long || (v.maxMode && v.context.Some? && m.maxContext != v.context)
  }

  /** The tier the variant belongs to. */
  predicate Belongs(m: Model, v: Variant, tier: Tier) {
    match tier
    case Base => !OwnContext(m, v)
    case Long => v.long
    case Context(limit) => OwnContext(m, v) && v.context.Some? && v.context.value == limit
  }

  /** The base entry keeps every variant but the one-million-token ones, also those
      that have an entry of their own. */
  predicate Offers(m: Model, v: Variant, tier: Tier) {
    if tier.Base? then !v.long else Belongs(m, v, tier)
  }

  // -------------------------------------------------------------------- filters

  /** The elements that are chosen, in their order. */
  function Selected(s: seq<Variant>, chosen: seq<bool>): seq<Variant>
    requires |chosen| == |s|
  {
    if s == [] then [] else (if chosen[0] then [s[0]] else []) + Selected(s[1..], chosen[1..])
  }

  lemma {:induction false} SelectedHas(s: seq<Variant>, chosen: seq<bool>, v: Variant)
    requires |chosen| == |s|
    ensures v in Selected(s, chosen) <==> exists i :: 0 <= i < |s| && chosen[i] && s[i] == v
  {
    if s != [] {
      SelectedHas(s[1..], chosen[1..], v);
      if i :| 0 <= i < |s[1..]| && chosen[1..][i] && s[1..][i] == v {
        assert chosen[i + 1] && s[i + 1] == v;
      }
      if i :| 0 <= i < |s| && chosen[i] && s[i] == v {
        if i > 0 {
          assert chosen[1..][i - 1] && s[1..][i - 1] == v;
        }
      }
    }
  }

  /** What an entry of a tier offers: exactly these variants, in the model's order. */
  lemma {:induction false} AdvertisedExact(m: Model, variants: seq<Variant>, tier: Tier) returns (chosen: seq<bool>)
    ensures |chosen| == |variants| && Advertised(m, variants, tier) == Selected(variants, chosen)
    ensures forall i | 0 <= i < |variants| :: chosen[i] == Offers(m, variants[i], tier)
  {
    chosen := [];
    if variants != [] {
      var rest := AdvertisedExact(m, variants[1..], tier);
      chosen := [Offers(m, variants[0], tier)] + rest;
      assert chosen[1..] == rest;
    }
  }

  lemma {:induction false} ChosenExact(m: Model, variants: seq<Variant>, tier: Tier) returns (chosen: seq<bool>)
    ensures |chosen| == |variants| && Chosen(m, variants, tier) == Selected(variants, chosen)
    ensures forall i | 0 <= i < |variants| :: chosen[i] == Belongs(m, variants[i], tier)
  {
    chosen := [];
    if variants != [] {
      var rest := ChosenExact(m, variants[1..], tier);
      chosen := [Belongs(m, variants[0], tier)] + rest;
      assert chosen[1..] == rest;
    }
  }

  lemma {:induction false} OfSpeedExact(variants: seq<Variant>, fast: bool) returns (chosen: seq<bool>)
    ensures |chosen| == |variants| && OfSpeed(variants, fast) == Selected(variants, chosen)
    ensures forall i | 0 <= i < |variants| :: chosen[i] == (FastVariant(variants[i]) == fast)
  {
    chosen := [];
    if variants != [] {
      SameFast(variants[0]);
      var rest := OfSpeedExact(variants[1..], fast);
      chosen := [FastVariant(variants[0]) == fast] + rest;
      assert chosen[1..] == rest;
    }
  }

  lemma SameFast(v: Variant)
    ensures IsFast(v) <==> FastVariant(v)
  {
    if FastVariant(v) {
      var i :| 0 <= i < |v.params| && v.params[i].id == "fast" && v.params[i].value == "true";
      assert v.params[i] == Param("fast", "true");
    }
  }

  // --------------------------------------------------------------------- groups

  /** The speeds a model's entries are split by: both if Fast has its own rate. */
  predicate RightSpeed(m: Model, g: Group, v: Variant) {
    m.fastPriced ==> (FastVariant(v) <==> g.fast)
  }

  lemma OfferedInTier(m: Model, tier: Tier, v: Variant)
    ensures v in Advertised(m, m.variants, tier) <==> v in m.variants && Offers(m, v, tier)
  {
    var chosen := AdvertisedExact(m, m.variants, tier);
    SelectedHas(m.variants, chosen, v);
  }

  lemma OfSpeedHasExactly(variants: seq<Variant>, fast: bool, v: Variant)
    ensures v in OfSpeed(variants, fast) <==> v in variants && FastVariant(v) == fast
  {
    var chosen := OfSpeedExact(variants, fast);
    SelectedHas(variants, chosen, v);
  }

  lemma ChosenHasExactly(m: Model, variants: seq<Variant>, tier: Tier, v: Variant)
    ensures v in Chosen(m, variants, tier) <==> v in variants && Belongs(m, v, tier)
  {
    var chosen := ChosenExact(m, variants, tier);
    SelectedHas(variants, chosen, v);
  }

  /** A group of a tier offers exactly the variants the tier offers at its speed, is
      never empty, and is described by those that belong to the tier, or by all it
      offers when none does. */
  lemma GroupExact(m: Model, tier: Tier, g: Group, v: Variant)
    requires g in SpeedGroups(m, tier)
    ensures g.tier == tier && g.advertised != [] && (g.fast ==> m.fastPriced)
    ensures v in g.advertised <==> v in m.variants && Offers(m, v, tier) && RightSpeed(m, g, v)
    ensures v in g.variants <==> v in g.advertised && (Belongs(m, v, tier) || forall u | u in g.advertised :: !Belongs(m, u, tier))
  {
    GroupIs(m, tier, g);
    OfferedInTier(m, tier, v);
    OfSpeedHasExactly(Advertised(m, m.variants, tier), g.fast, v);
    DescribedBy(m, tier, g, v);
  }

  lemma GroupIs(m: Model, tier: Tier, g: Group)
    requires g in SpeedGroups(m, tier)
    ensures var advertised := Advertised(m, m.variants, tier);
            && g == GroupFor(m, tier, g.fast, g.advertised) && g.advertised != [] && (g.fast ==> m.fastPriced)
            && g.advertised == if m.fastPriced then OfSpeed(advertised, g.fast) else advertised
  {}

  lemma DescribedBy(m: Model, tier: Tier, g: Group, v: Variant)
    requires g == GroupFor(m, tier, g.fast, g.advertised)
    ensures v in g.variants <==> v in g.advertised && (Belongs(m, v, tier) || forall u | u in g.advertised :: !Belongs(m, u, tier))
  {
    var inTier := Chosen(m, g.advertised, tier);
    ChosenHasExactly(m, g.advertised, tier, v);
    if inTier == [] {
      forall u | u in g.advertised ensures !Belongs(m, u, tier) {
        ChosenHasExactly(m, g.advertised, tier, u);
      }
    } else {
      ChosenHasExactly(m, g.advertised, tier, inTier[0]);
    }
  }

  /** The tiers: the base, the one-million-token one, and each context of its own
      that some variant has, once. */
  lemma TiersExact(m: Model, limit: nat)
    ensures var tiers := TiersOf(m);
            && |tiers| >= 2 && tiers[0] == Base && tiers[1] == Long
            && (forall i | 2 <= i < |tiers| :: tiers[i].Context?)
            && (Context(limit) in tiers <==> exists v :: v in m.variants && OwnContext(m, v) && !v.long && v.context == Some(limit))
            && (forall i, j | 0 <= i < j < |tiers| :: tiers[i] != tiers[j])
  {
    var limits := ExtraContexts(m, m.variants, {});
    ExtraExact(m, m.variants, {}, limit);
    TiersAre(limits);
    assert TiersOf(m) == [Base, Long] + Tiers(limits);
    if limit in limits {
      var i :| 0 <= i < |limits| && limits[i] == limit;
      assert TiersOf(m)[i + 2] == Context(limit);
    }
  }

  lemma {:induction false} TiersAre(limits: seq<nat>)
    ensures |Tiers(limits)| == |limits| && forall i | 0 <= i < |limits| :: Tiers(limits)[i] == Context(limits[i])
  {
    if limits != [] {
      TiersAre(limits[1..]);
    }
  }

  lemma {:induction false} ExtraExact(m: Model, variants: seq<Variant>, seen: set<nat>, limit: nat)
    ensures var limits := ExtraContexts(m, variants, seen);
            && (limit in limits <==> limit !in seen && exists v :: v in variants && OwnContext(m, v) && !v.long && v.context == Some(limit))
            && (forall i, j | 0 <= i < j < |limits| :: limits[i] != limits[j])
            && (forall i | 0 <= i < |limits| :: limits[i] !in seen)
    decreases |variants|
  {
    if variants != [] {
      var v := variants[0];
      var take := IsSeparate(m, v) && !v.long && v.context.Some? && v.context.value !in seen;
      ExtraExact(m, variants[1..], if take then seen + {v.context.value} else seen, limit);
      assert variants == [v] + variants[1..];
    }
  }

  /** A tier has a group for each speed at which it offers something, the slow one first. */
  lemma GroupsOfTier(m: Model, tier: Tier, v: Variant)
    requires v in m.variants && Offers(m, v, tier)
    ensures exists g :: g in SpeedGroups(m, tier) && v in g.advertised
    ensures |SpeedGroups(m, tier)| <= if m.fastPriced then 2 else 1
    ensures |SpeedGroups(m, tier)| == 2 ==> !SpeedGroups(m, tier)[0].fast && SpeedGroups(m, tier)[1].fast
  {
    var advertised := Advertised(m, m.variants, tier);
    OfferedInTier(m, tier, v);
    OfSpeedHasExactly(advertised, FastVariant(v), v);
    var group := GroupFor(m, tier, m.fastPriced && FastVariant(v), if m.fastPriced then OfSpeed(advertised, FastVariant(v)) else advertised);
    assert group in SpeedGroups(m, tier);
    assert v in group.advertised;
  }

  // ------------------------------------------------------------------------ ids

  /** The entry for a model's plain variants keeps the model's id: the first group
      without a suffix, or the first of all when none is plain. */
  lemma PrimaryIs(groups: seq<Group>, i: nat)
    requires i < |groups|
    ensures i == Primary(groups) <==>
              if exists k :: 0 <= k < |groups| && groups[k].suffix == ""
              then groups[i].suffix == "" && (forall k | 0 <= k < i :: groups[k].suffix != "")
              else i == 0
  {
    PlainIs(groups);
  }

  lemma {:induction false} PlainIs(groups: seq<Group>)
    ensures var p := Plain(groups);
            && (forall k | 0 <= k < p :: groups[k].suffix != "")
            && (p < |groups| ==> groups[p].suffix == "")
  {
    if groups != [] && groups[0].suffix != "" {
      PlainIs(groups[1..]);
    }
  }

  /** Every other entry is named after the model and its suffix, "-fast" if it has
      none, with the first number from 2 on that makes it free. */
  lemma OtherIds(m: Model, g: Group, used: set<string>)
    ensures var suffix := if g.suffix == "" then "-fast" else g.suffix;
            var id := IdFor(m, g, false, used);
            && (m.id + suffix !in used ==> id == m.id + suffix)
            && (m.id + suffix in used ==>
                  exists n: nat, before: string, after: string ::
                    && id == Numbered(m.id + before + "-", after, n) && n >= 2 && before + after == suffix
                    && (after == "" || after == "-fast")
                    && (forall k: nat | 2 <= k < n :: Numbered(m.id + before + "-", after, k) in used))
  {
    var suffix := if g.suffix == "" then "-fast" else g.suffix;
    if m.id + suffix in used {
      var before, after := if suffix != "-fast" && EndsFast(suffix) then suffix[..|suffix| - 5] else suffix,
                           if suffix != "-fast" && EndsFast(suffix) then "-fast" else "";
      assert before + after == suffix;
      FirstFreeIsFree(m.id + before + "-", after, used, 2);
      assert IdFor(m, g, false, used) == Numbered(m.id + before + "-", after, FirstFree(m.id + before + "-", after, used, 2));
    }
  }

  /** The suffix says the tier and the speed. */
  lemma SuffixIs(m: Model, tier: Tier, g: Group)
    requires g in SpeedGroups(m, tier)
    ensures g.suffix == (match tier
                         case Base => ""
                         case Long => "-1m"
                         case Context(limit) => "-" + ContextSuffix(limit)) + (if g.fast then "-fast" else "")
  {}

  // ----------------------------------------------------------------------- keys

  /** A variant is listed under its own title, unless that is the model's name or
      taken already; then its parameters tell it apart, or "default" beside the
      model's name, and at last a number from 2 on. */
  lemma KeyIs(base: string, used: set<string>, v: Variant)
    ensures var key, tagged := KeyFor(base, used, v), v.title + Tag(v.params);
            && (v.title !in used && v.title != base ==> key == v.title)
            && (v.title !in used && v.title == base ==>
                  var first := if Tag(v.params) == "" then base + " default" else tagged;
                  first !in used ==> key == first)
            && (v.title in used && tagged !in used ==> key == tagged)
            && (key in {v.title, tagged, base + " default"} || exists n: nat :: n >= 2 && key == Numbered(tagged + " ", "", n))
  {
    FirstFreeIsFree(v.title + Tag(v.params) + " ", "", used, 2);
  }
}
