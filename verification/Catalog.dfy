/** The host catalog made from Cursor's models (src/model-config.ts): which
    entries a model gets, under which ids, and how each entry's variant picker
    names its variants.

    Display names are taken after sanitizing, and a variant's context after
    parsing, so `title` and `context` are inputs here. */
module Catalog {

  import opened Decimal

  datatype Option<T> = None | Some(value: T)

  datatype Param = Param(id: string, value: string)

  /** `context` is the limit of the first context parameter; `long` says that a
      context parameter means one million tokens. */
  datatype Variant = Variant(title: string, params: seq<Param>, context: Option<nat>, long: bool, maxMode: bool)

  /** `fastPriced` says that the Fast variants have their own published rate. */
  datatype Model = Model(id: string, title: string, maxContext: Option<nat>, fastPriced: bool, variants: seq<Variant>)

  datatype Tier = Base | Long | Context(limit: nat)

  datatype Group = Group(tier: Tier, fast: bool, variants: seq<Variant>, advertised: seq<Variant>, suffix: string)

  /** One catalog entry: its picker has the key `keys[i]` for `advertised[i]`. */
  datatype Entry = Entry(id: string, tier: Tier, fast: bool, variants: seq<Variant>, advertised: seq<Variant>, keys: seq<string>)

  // ------------------------------------------------------------- free names

  /** The first `n`, `n + 1`, ... whose number between `prefix` and `suffix` is not
      used. Every used name that is passed is left out of the search from then on. */
  function FirstFree(prefix: string, suffix: string, used: set<string>, n: nat): nat
    decreases |used|
  {
    var name := Numbered(prefix, suffix, n);
    if name in used then SmallerSet(used, name); FirstFree(prefix, suffix, used - {name}, n + 1) else n
  }

  function Numbered(prefix: string, suffix: string, n: nat): string {
    prefix + Digits(n) + suffix
  }

  lemma SmallerSet(used: set<string>, name: string)
    requires name in used
    ensures |used - {name}| < |used|
  {}

  lemma NumberedDiffer(prefix: string, suffix: string, m: nat, n: nat)
    requires Numbered(prefix, suffix, m) == Numbered(prefix, suffix, n)
    ensures m == n
  {
    var a, b := Numbered(prefix, suffix, m), Numbered(prefix, suffix, n);
    assert a[|prefix|..|a| - |suffix|] == Digits(m);
    assert b[|prefix|..|b| - |suffix|] == Digits(n);
    NumberOfDigits(m);
    NumberOfDigits(n);
  }

  /** The name found is free, and it is the first: the candidates are pairwise
      different and only finitely many names are used. */
  lemma {:induction false} FirstFreeIsFree(prefix: string, suffix: string, used: set<string>, n: nat)
    ensures var k := FirstFree(prefix, suffix, used, n);
            && k >= n && Numbered(prefix, suffix, k) !in used
            && forall m | n <= m < k :: Numbered(prefix, suffix, m) in used
    decreases |used|
  {
    var name := Numbered(prefix, suffix, n);
    if name in used {
      SmallerSet(used, name);
      FirstFreeIsFree(prefix, suffix, used - {name}, n + 1);
      var k := FirstFree(prefix, suffix, used - {name}, n + 1);
      if Numbered(prefix, suffix, k) == name {
        NumberedDiffer(prefix, suffix, k, n);
      }
    }
  }

  lemma FirstFreeUnique(prefix: string, suffix: string, used: set<string>, n: nat, k: nat)
    requires k >= n && Numbered(prefix, suffix, k) !in used
    requires forall m | n <= m < k :: Numbered(prefix, suffix, m) in used
    ensures FirstFree(prefix, suffix, used, n) == k
  {
    FirstFreeIsFree(prefix, suffix, used, n);
  }

  /** The search loop: it ends because every candidate it passes is a used name
      it has not met before. */
  method SearchFree(prefix: string, suffix: string, used: set<string>, from: nat) returns (name: string, n: nat)
    ensures n == FirstFree(prefix, suffix, used, from) && name == Numbered(prefix, suffix, n)
  {
    n := from;
    name := Numbered(prefix, suffix, n);
    ghost var passed: set<string> := {};
    while name in used
      invariant n >= from && name == Numbered(prefix, suffix, n)
      invariant passed <= used
      invariant forall m | from <= m < n :: Numbered(prefix, suffix, m) in used
      invariant forall p | p in passed :: exists m :: from <= m < n && p == Numbered(prefix, suffix, m)
      decreases |used - passed|
    {
      if name in passed {
        var m :| from <= m < n && name == Numbered(prefix, suffix, m);
        NumberedDiffer(prefix, suffix, m, n);
      }
      SmallerSet(used - passed, name);
      assert used - (passed + {name}) == (used - passed) - {name};
      passed := passed + {name};
      assert Numbered(prefix, suffix, n) == name;
      n := n + 1;
      name := Numbered(prefix, suffix, n);
    }
    FirstFreeUnique(prefix, suffix, used, from, n);
  }

  // ------------------------------------------------------------ picker keys

  function Dimensions(params: seq<Param>): seq<string> {
    if params == [] then []
    else
      var p := params[0];
      (if p.id == "fast" && p.value == "true" then ["Fast"]
       else if p.id == "thinking" && p.value == "true" then ["Thinking"]
       else if p.id == "context" then [p.value]
       else []) + Dimensions(params[1..])
  }

  function Spaced(words: seq<string>): string {
    if words == [] then "" else " " + words[0] + Spaced(words[1..])
  }

  /** What tells a variant apart; nothing for one without parameters. */
  function Tag(params: seq<Param>): string {
    if Dimensions(params) != [] then Spaced(Dimensions(params)) else if params == [] then "" else " default"
  }

  /** The key tried first: a variant named like the model is told apart from it,
      and a second variant of the same name is tagged. */
  function FirstKey(base: string, used: set<string>, v: Variant): string {
    if v.title == base && v.title !in used then base + if Tag(v.params) == "" then " default" else Tag(v.params)
    else if v.title in used then v.title + Tag(v.params)
    else v.title
  }

  function KeyFor(base: string, used: set<string>, v: Variant): string {
    var key := FirstKey(base, used, v);
    if key !in used then key
    else
      var prefix := v.title + Tag(v.params) + " ";
      Numbered(prefix, "", FirstFree(prefix, "", used, 2))
  }

  function Keys(base: string, variants: seq<Variant>, used: set<string>): (keys: seq<string>)
    ensures |keys| == |variants|
    decreases |variants|
  {
    if variants == [] then []
    else
      var key := KeyFor(base, used, variants[0]);
      [key] + Keys(base, variants[1..], used + {key})
  }

  ghost predicate Distinct(names: seq<string>) {
    forall i, j | 0 <= i < j < |names| :: names[i] != names[j]
  }

  lemma KeyIsFree(base: string, used: set<string>, v: Variant)
    ensures KeyFor(base, used, v) !in used
  {
    FirstFreeIsFree(v.title + Tag(v.params) + " ", "", used, 2);
  }

  /** Each variant gets exactly one key, different from all others and from the
      keys already used. */
  lemma {:induction false} KeysAreDistinct(base: string, variants: seq<Variant>, used: set<string>)
    ensures var keys := Keys(base, variants, used);
            Distinct(keys) && forall i | 0 <= i < |keys| :: keys[i] !in used
    decreases |variants|
  {
    if variants != [] {
      var key := KeyFor(base, used, variants[0]);
      KeyIsFree(base, used, variants[0]);
      KeysAreDistinct(base, variants[1..], used + {key});
    }
  }

  /** The variant's title is already used, the model's name is not, and the name
      is the first free one among the title with its tag and then with numbers. */
  ghost predicate TakesModelName(base: string, used: set<string>, v: Variant) {
    && v.title in used && base !in used
    && (v.title + Tag(v.params) == base
        || (v.title + Tag(v.params) in used
            && exists n: nat :: n >= 2 && Numbered(v.title + Tag(v.params) + " ", "", n) == base
                                && forall m: nat | 2 <= m < n :: Numbered(v.title + Tag(v.params) + " ", "", m) in used))
  }

  lemma NextKeyIsModelName(base: string, used: set<string>, v: Variant)
    ensures KeyFor(base, used, v) == base <==> TakesModelName(base, used, v)
  {
    KeyIsFree(base, used, v);
    var prefix := v.title + Tag(v.params) + " ";
    FirstFreeIsFree(prefix, "", used, 2);
    if v.title in used && base !in used && v.title + Tag(v.params) in used {
      if n: nat :| n >= 2 && Numbered(prefix, "", n) == base && forall m: nat | 2 <= m < n :: Numbered(prefix, "", m) in used {
        FirstFreeUnique(prefix, "", used, 2, n);
      }
    }
    if v.title !in used {
      UnusedLabelKeepsAway(base, used, v);
    }
  }

  lemma UnusedLabelKeepsAway(base: string, used: set<string>, v: Variant)
    requires v.title !in used
    ensures KeyFor(base, used, v) != base
  {
    if v.title == base {
      var prefix := v.title + Tag(v.params) + " ";
      assert |FirstKey(base, used, v)| > |base| && |prefix| > |base|;
      assert |Numbered(prefix, "", FirstFree(prefix, "", used, 2))| > |base|;
    }
  }

  function KeySet(keys: seq<string>): set<string> {
    set key | key in keys
  }

  /** A picker's key depends on the variants before it only through their keys. */
  lemma {:induction false} KeyAt(base: string, variants: seq<Variant>, used: set<string>, i: nat)
    requires i < |variants|
    ensures Keys(base, variants[..i], used) == Keys(base, variants, used)[..i]
    ensures Keys(base, variants, used)[i] == KeyFor(base, used + KeySet(Keys(base, variants[..i], used)), variants[i])
    decreases i
  {
    if i == 0 {
      assert used + KeySet([]) == used;
    } else {
      var key := KeyFor(base, used, variants[0]);
      var before := Keys(base, variants[1..i], used + {key});
      KeyAt(base, variants[1..], used + {key}, i - 1);
      assert variants[1..][..i - 1] == variants[1..i] == variants[..i][1..];
      assert used + KeySet([key] + before) == (used + {key}) + KeySet(before);
    }
  }

  /** A key of the picker equals the model's own name exactly for a variant that
      takes it after the keys of the variants before it. */
  lemma KeyIsModelName(base: string, variants: seq<Variant>, i: nat)
    requires i < |variants|
    ensures Keys(base, variants, {})[i] == base <==> TakesModelName(base, KeySet(Keys(base, variants[..i], {})), variants[i])
  {
    var before := KeySet(Keys(base, variants[..i], {}));
    KeyAt(base, variants, {}, i);
    assert {} + before == before;
    NextKeyIsModelName(base, before, variants[i]);
  }

  /** A key can be the model's name after all: a model "Composer Fast" with two
      variants "Composer", the second one Fast. */
  lemma ComposerFast()
    ensures var slow, fast := Variant("Composer", [], None, false, false), Variant("Composer", [Param("fast", "true")], None, false, false);
            Keys("Composer Fast", [slow, fast], {}) == ["Composer", "Composer Fast"]
  {
    var slow, fast := Variant("Composer", [], None, false, false), Variant("Composer", [Param("fast", "true")], None, false, false);
    var params := [Param("fast", "true")];
    assert params[1..] == [];
    assert Dimensions(params) == ["Fast"];
    assert ["Fast"][1..] == [];
    assert Tag(params) == " " + "Fast" + "";
    assert KeyFor("Composer Fast", {}, slow) == "Composer";
    assert "Composer" + Tag(params) == "Composer Fast";
    assert KeyFor("Composer Fast", {"Composer"}, fast) == "Composer Fast";
    assert {} + {"Composer"} == {"Composer"};
    assert [slow, fast][1..] == [fast] && [fast][1..] == [];
  }

  method PickKey(base: string, used: set<string>, v: Variant) returns (key: string)
    ensures key == KeyFor(base, used, v)
  {
    key := FirstKey(base, used, v);
    if key in used {
      ghost var n;
      key, n := SearchFree(v.title + Tag(v.params) + " ", "", used, 2);
    }
  }

  /** The picker's table: the parameters under each key, a later key replacing an
      earlier one. */
  function Picker(keys: seq<string>, variants: seq<Variant>): map<string, seq<Param>>
    requires |keys| == |variants|
    decreases |keys|
  {
    if keys == [] then map[]
    else
      var n := |keys| - 1;
      Picker(keys[..n], variants[..n])[keys[n] := variants[n].params]
  }

  lemma PickerGrows(keys: seq<string>, variants: seq<Variant>, key: string, v: Variant)
    requires |keys| == |variants|
    ensures Picker(keys + [key], variants + [v]) == Picker(keys, variants)[key := v.params]
  {
    assert (keys + [key])[..|keys|] == keys && (variants + [v])[..|variants|] == variants;
  }

  /** With distinct keys nothing is replaced: the table has every variant. */
  lemma {:induction false} PickerHoldsAll(keys: seq<string>, variants: seq<Variant>)
    requires |keys| == |variants| && Distinct(keys)
    ensures forall k :: k in Picker(keys, variants) <==> k in keys
    ensures forall i | 0 <= i < |keys| :: keys[i] in Picker(keys, variants) && Picker(keys, variants)[keys[i]] == variants[i].params
    decreases |keys|
  {
    if keys != [] {
      var n := |keys| - 1;
      PickerHoldsAll(keys[..n], variants[..n]);
      assert keys == keys[..n] + [keys[n]];
      assert keys[n] !in keys[..n];
      forall i | 0 <= i < n
        ensures keys[..n][i] == keys[i] && variants[..n][i] == variants[i]
      {}
    }
  }

  lemma KeysStep(base: string, variants: seq<Variant>, used: set<string>, keys: seq<string>, i: nat)
    requires i < |variants|
    ensures var key := KeyFor(base, used, variants[i]);
            keys + Keys(base, variants[i..], used) == (keys + [key]) + Keys(base, variants[i + 1..], used + {key})
  {
    assert variants[i..][0] == variants[i] && variants[i..][1..] == variants[i + 1..];
  }

  /** The picker of one entry: its keys and its table. */
  method ModelInfoVariants(base: string, variants: seq<Variant>) returns (keys: seq<string>, entries: map<string, seq<Param>>)
    ensures keys == Keys(base, variants, {}) && Distinct(keys)
    ensures entries == Picker(keys, variants)
  {
    keys, entries := [], map[];
    var used: set<string> := {};
    var i := 0;
    assert variants[0..] == variants && [] + Keys(base, variants, {}) == Keys(base, variants, {});
    while i < |variants|
      invariant i <= |variants| && |keys| == i
      invariant keys + Keys(base, variants[i..], used) == Keys(base, variants, {})
      invariant entries == Picker(keys, variants[..i])
    {
      var key := PickKey(base, used, variants[i]);
      KeysStep(base, variants, used, keys, i);
      PickerGrows(keys, variants[..i], key, variants[i]);
      assert variants[..i + 1] == variants[..i] + [variants[i]];
      keys := keys + [key];
      used := used + {key};
      entries := entries[key := variants[i].params];
      i := i + 1;
    }
    assert keys + Keys(base, variants[i..], used) == keys && variants[..i] == variants;
    KeysAreDistinct(base, variants, {});
  }

  // ---------------------------------------------------------------- the groups

  predicate IsFast(v: Variant) {
    exists i | 0 <= i < |v.params| :: v.params[i] == Param("fast", "true")
  }

  predicate IsSeparate(m: Model, v: Variant) {
    v.long || (v.maxMode && v.context.Some? && v.context != m.maxContext)
  }

  predicate InTier(m: Model, v: Variant, tier: Tier) {
    match tier
    case Base => !IsSeparate(m, v)
    case Long => v.long
    case Context(limit) => IsSeparate(m, v) && v.context == Some(limit)
  }

  /** The variants an entry of the tier offers; the base entry keeps every one
      that is not a one-million-token variant. */
  predicate Offered(m: Model, v: Variant, tier: Tier) {
    if tier == Base then !v.long else InTier(m, v, tier)
  }

  function Chosen(m: Model, variants: seq<Variant>, tier: Tier): seq<Variant> {
    if variants == [] then []
    else (if InTier(m, variants[0], tier) then [variants[0]] else []) + Chosen(m, variants[1..], tier)
  }

  function Advertised(m: Model, variants: seq<Variant>, tier: Tier): seq<Variant> {
    if variants == [] then []
    else (if Offered(m, variants[0], tier) then [variants[0]] else []) + Advertised(m, variants[1..], tier)
  }

  function OfSpeed(variants: seq<Variant>, fast: bool): seq<Variant> {
    if variants == [] then []
    else (if IsFast(variants[0]) == fast then [variants[0]] else []) + OfSpeed(variants[1..], fast)
  }

  /** The other context limits of a model, each once, in order of appearance. */
  function ExtraContexts(m: Model, variants: seq<Variant>, seen: set<nat>): seq<nat> {
    if variants == [] then []
    else
      var v := variants[0];
      if IsSeparate(m, v) && !v.long && v.context.Some? && v.context.value !in seen
      then [v.context.value] + ExtraContexts(m, variants[1..], seen + {v.context.value})
      else ExtraContexts(m, variants[1..], seen)
  }

  /** A limit in thousands, with the decimals it needs. */
  function Thousands(limit: nat): string {
    var rest := limit % 1000;
    if rest == 0 then Digits(limit / 1000)
    else if rest % 100 == 0 then Digits(limit / 1000) + "." + Digits(rest / 100)
    else if rest % 10 == 0 then Digits(limit / 1000) + "." + Digits(rest / 100) + Digits(rest / 10 % 10)
    else Digits(limit / 1000) + "." + Digits(rest / 100) + Digits(rest / 10 % 10) + Digits(rest % 10)
  }

  function ContextSuffix(limit: nat): string {
    if limit % 1_000_000 == 0 then Digits(limit / 1_000_000) + "m" else Thousands(limit) + "k"
  }

  function TierSuffix(tier: Tier): string {
    match tier
    case Base => ""
    case Long => "-1m"
    case Context(limit) => "-" + ContextSuffix(limit)
  }

  function GroupFor(m: Model, tier: Tier, fast: bool, variants: seq<Variant>): Group {
    var inTier := Chosen(m, variants, tier);
    Group(tier, fast, if inTier == [] then variants else inTier, variants, TierSuffix(tier) + if fast then "-fast" else "")
  }

  function SpeedGroups(m: Model, tier: Tier): seq<Group> {
    var advertised := Advertised(m, m.variants, tier);
    if !m.fastPriced then if advertised == [] then [] else [GroupFor(m, tier, false, advertised)]
    else
      (if OfSpeed(advertised, false) == [] then [] else [GroupFor(m, tier, false, OfSpeed(advertised, false))])
      + (if OfSpeed(advertised, true) == [] then [] else [GroupFor(m, tier, true, OfSpeed(advertised, true))])
  }

  function Tiers(limits: seq<nat>): seq<Tier> {
    if limits == [] then [] else [Context(limits[0])] + Tiers(limits[1..])
  }

  function TiersOf(m: Model): seq<Tier> {
    [Base, Long] + Tiers(ExtraContexts(m, m.variants, {}))
  }

  function GroupsOf(m: Model, tiers: seq<Tier>): seq<Group> {
    if tiers == [] then [] else SpeedGroups(m, tiers[0]) + GroupsOf(m, tiers[1..])
  }

  // ----------------------------------------------------------------- catalog ids

  predicate EndsFast(suffix: string) {
    |suffix| >= 5 && suffix[|suffix| - 5..] == "-fast"
  }

  /** The id with the plain suffix if it is free, else the first numbered one. */
  function UniqueId(used: set<string>, modelId: string, suffix: string): string {
    if modelId + suffix !in used then modelId + suffix
    else if suffix != "-fast" && EndsFast(suffix)
    then var prefix := modelId + suffix[..|suffix| - 5] + "-"; Numbered(prefix, "-fast", FirstFree(prefix, "-fast", used, 2))
    else var prefix := modelId + suffix + "-"; Numbered(prefix, "", FirstFree(prefix, "", used, 2))
  }

  lemma UniqueIdIsFree(used: set<string>, modelId: string, suffix: string)
    ensures UniqueId(used, modelId, suffix) !in used
  {
    if |suffix| >= 5 {
      FirstFreeIsFree(modelId + suffix[..|suffix| - 5] + "-", "-fast", used, 2);
    }
    FirstFreeIsFree(modelId + suffix + "-", "", used, 2);
  }

  method UniqueCatalogId(used: set<string>, modelId: string, suffix: string) returns (id: string, used': set<string>)
    ensures id == UniqueId(used, modelId, suffix) && used' == used + {id}
  {
    id := modelId + suffix;
    if id in used {
      ghost var n;
      if suffix != "-fast" && EndsFast(suffix) {
        id, n := SearchFree(modelId + suffix[..|suffix| - 5] + "-", "-fast", used, 2);
      } else {
        id, n := SearchFree(modelId + suffix + "-", "", used, 2);
      }
    }
    used' := used + {id};
  }

  /** The first group without a suffix takes the model's own id, or else the first group. */
  function Plain(groups: seq<Group>): (i: nat)
    ensures i <= |groups|
  {
    if groups == [] || groups[0].suffix == "" then 0 else 1 + Plain(groups[1..])
  }

  function Primary(groups: seq<Group>): nat {
    if Plain(groups) < |groups| then Plain(groups) else 0
  }

  function EntryFor(m: Model, id: string, g: Group): Entry {
    Entry(id, g.tier, g.fast, g.variants, g.advertised, Keys(m.title, g.advertised, {}))
  }

  function IdFor(m: Model, g: Group, primary: bool, used: set<string>): string {
    if primary then m.id else UniqueId(used, m.id, if g.suffix == "" then "-fast" else g.suffix)
  }

  /** The entries of a model's groups from the `i`-th on, and the ids used then. */
  function Assign(m: Model, groups: seq<Group>, primary: nat, i: nat, used: set<string>): (seq<Entry>, set<string>)
    requires i <= |groups|
    decreases |groups| - i
  {
    if i == |groups| then ([], used)
    else
      var id := IdFor(m, groups[i], i == primary, used);
      var (rest, used') := Assign(m, groups, primary, i + 1, used + {id});
      ([EntryFor(m, id, groups[i])] + rest, used')
  }

  function EntriesOf(m: Model, used: set<string>): (seq<Entry>, set<string>) {
    var groups := GroupsOf(m, TiersOf(m));
    if groups == [] then ([Entry(m.id, Base, false, [], [], [])], used) else Assign(m, groups, Primary(groups), 0, used)
  }

  /** The whole catalog, in the order its entries are written. */
  function Entries(models: seq<Model>, used: set<string>): seq<Entry>
    decreases |models|
  {
    if models == [] then []
    else
      var (own, used') := EntriesOf(models[0], used);
      own + Entries(models[1..], used')
  }

  function IdsOf(models: seq<Model>): set<string> {
    set i | 0 <= i < |models| :: models[i].id
  }

  function ModelsToConfig(models: seq<Model>): seq<Entry> {
    Entries(models, IdsOf(models))
  }

  // -------------------------------------------------------------- main results

  ghost predicate DistinctIds(entries: seq<Entry>) {
    forall i, j | 0 <= i < j < |entries| :: entries[i].id != entries[j].id
  }

  lemma {:induction false} AssignIds(m: Model, groups: seq<Group>, primary: nat, i: nat, used: set<string>)
    requires i <= |groups| && m.id in used
    ensures var (entries, used') := Assign(m, groups, primary, i, used);
            && |entries| == |groups| - i && used <= used'
            && (forall k | 0 <= k < |entries| ::
                  entries[k].id in used' && (if i + k == primary then entries[k].id == m.id else entries[k].id !in used))
            && DistinctIds(entries)
    decreases |groups| - i
  {
    if i < |groups| {
      var id := IdFor(m, groups[i], i == primary, used);
      if i != primary {
        UniqueIdIsFree(used, m.id, if groups[i].suffix == "" then "-fast" else groups[i].suffix);
      }
      AssignIds(m, groups, primary, i + 1, used + {id});
      var (rest, used') := Assign(m, groups, primary, i + 1, used + {id});
      forall k | 0 <= k < |rest|
        ensures rest[k].id != id
      {}
    }
  }

  lemma EntriesOfIds(m: Model, used: set<string>)
    requires m.id in used
    ensures var (entries, used') := EntriesOf(m, used);
            && entries != [] && used <= used' && DistinctIds(entries)
            && forall k | 0 <= k < |entries| :: entries[k].id in used' && (entries[k].id == m.id || entries[k].id !in used)
  {
    var groups := GroupsOf(m, TiersOf(m));
    if groups != [] {
      AssignIds(m, groups, Primary(groups), 0, used);
    }
  }

  lemma Concatenated(own: seq<Entry>, rest: seq<Entry>)
    requires DistinctIds(own) && DistinctIds(rest)
    requires forall i, j | 0 <= i < |own| && 0 <= j < |rest| :: own[i].id != rest[j].id
    ensures DistinctIds(own + rest)
  {}

  lemma {:induction false} EntriesIds(models: seq<Model>, used: set<string>)
    requires forall i, j | 0 <= i < j < |models| :: models[i].id != models[j].id
    requires IdsOf(models) <= used
    ensures DistinctIds(Entries(models, used))
    ensures forall e | e in Entries(models, used) :: e.id in IdsOf(models) || e.id !in used
    decreases |models|
  {
    if models != [] {
      var m := models[0];
      assert m.id in IdsOf(models);
      EntriesOfIds(m, used);
      var (own, used') := EntriesOf(m, used);
      forall id | id in IdsOf(models[1..])
        ensures id in IdsOf(models) && id != m.id
      {
        var i :| 0 <= i < |models[1..]| && models[1..][i].id == id;
        assert models[i + 1].id == id;
      }
      EntriesIds(models[1..], used');
      var rest := Entries(models[1..], used');
      forall i, j | 0 <= i < |own| && 0 <= j < |rest|
        ensures own[i].id != rest[j].id
      {
        assert rest[j] in rest;
      }
      Concatenated(own, rest);
    }
  }

  /** For models with distinct ids no catalog id is written twice. */
  lemma NoIdWrittenTwice(models: seq<Model>)
    requires forall i, j | 0 <= i < j < |models| :: models[i].id != models[j].id
    ensures DistinctIds(ModelsToConfig(models))
  {
    EntriesIds(models, IdsOf(models));
  }

  lemma {:induction false} AdvertisedHas(m: Model, variants: seq<Variant>, tier: Tier, v: Variant)
    requires v in variants && Offered(m, v, tier)
    ensures v in Advertised(m, variants, tier)
  {
    if v != variants[0] {
      AdvertisedHas(m, variants[1..], tier, v);
    }
  }

  lemma {:induction false} OfSpeedHas(variants: seq<Variant>, v: Variant)
    requires v in variants
    ensures v in OfSpeed(variants, IsFast(v))
  {
    if v != variants[0] {
      OfSpeedHas(variants[1..], v);
    }
  }

  lemma SpeedGroupsHave(m: Model, tier: Tier, v: Variant)
    requires v in m.variants && Offered(m, v, tier)
    ensures exists g | g in SpeedGroups(m, tier) :: v in g.advertised
  {
    var advertised := Advertised(m, m.variants, tier);
    AdvertisedHas(m, m.variants, tier, v);
    if m.fastPriced {
      OfSpeedHas(advertised, v);
      assert GroupFor(m, tier, IsFast(v), OfSpeed(advertised, IsFast(v))) in SpeedGroups(m, tier);
    } else {
      assert GroupFor(m, tier, false, advertised) in SpeedGroups(m, tier);
    }
  }

  /** A variant is in the base entry, or in the long one. */
  lemma GroupsHave(m: Model, v: Variant)
    requires v in m.variants
    ensures exists g | g in GroupsOf(m, TiersOf(m)) :: v in g.advertised
  {
    var tiers := TiersOf(m);
    assert tiers[0] == Base && tiers[1..][0] == Long;
    SpeedGroupsHave(m, if v.long then Long else Base, v);
    var g :| g in SpeedGroups(m, if v.long then Long else Base) && v in g.advertised;
    assert g in GroupsOf(m, tiers);
  }

  lemma {:induction false} AssignHas(m: Model, groups: seq<Group>, primary: nat, i: nat, used: set<string>, k: nat)
    requires i <= k < |groups|
    ensures var entries := Assign(m, groups, primary, i, used).0;
            exists e | e in entries :: e.advertised == groups[k].advertised
    decreases |groups| - i
  {
    var id := IdFor(m, groups[i], i == primary, used);
    var rest := Assign(m, groups, primary, i + 1, used + {id}).0;
    if i == k {
      assert EntryFor(m, id, groups[i]) in [EntryFor(m, id, groups[i])] + rest;
    } else {
      AssignHas(m, groups, primary, i + 1, used + {id}, k);
      var e :| e in rest && e.advertised == groups[k].advertised;
      assert e in [EntryFor(m, id, groups[i])] + rest;
    }
  }

  lemma EntriesOfHave(m: Model, used: set<string>, v: Variant)
    requires v in m.variants
    ensures exists e | e in EntriesOf(m, used).0 :: v in e.advertised
  {
    GroupsHave(m, v);
    var groups := GroupsOf(m, TiersOf(m));
    var g :| g in groups && v in g.advertised;
    var k :| 0 <= k < |groups| && groups[k] == g;
    AssignHas(m, groups, Primary(groups), 0, used, k);
  }

  /** No variant is lost: each is offered by some entry of the catalog. */
  lemma {:induction false} EveryVariantAppears(models: seq<Model>, used: set<string>, i: nat, v: Variant)
    requires i < |models| && v in models[i].variants
    ensures exists e | e in Entries(models, used) :: v in e.advertised
    decreases |models|
  {
    var (own, used') := EntriesOf(models[0], used);
    if i == 0 {
      EntriesOfHave(models[0], used, v);
      var e :| e in own && v in e.advertised;
      assert e in own + Entries(models[1..], used');
    } else {
      EveryVariantAppears(models[1..], used', i - 1, v);
      var e :| e in Entries(models[1..], used') && v in e.advertised;
      assert e in own + Entries(models[1..], used');
    }
  }

  ghost predicate OneKeyEach(e: Entry) {
    |e.keys| == |e.advertised| && Distinct(e.keys)
  }

  lemma {:induction false} AssignPickers(m: Model, groups: seq<Group>, primary: nat, i: nat, used: set<string>)
    requires i <= |groups|
    ensures forall e | e in Assign(m, groups, primary, i, used).0 :: OneKeyEach(e)
    decreases |groups| - i
  {
    if i < |groups| {
      var id := IdFor(m, groups[i], i == primary, used);
      AssignPickers(m, groups, primary, i + 1, used + {id});
      KeysAreDistinct(m.title, groups[i].advertised, {});
    }
  }

  /** Every picker has exactly one key for each variant it offers. */
  lemma {:induction false} OneKeyPerVariant(models: seq<Model>, used: set<string>)
    ensures forall e | e in Entries(models, used) :: OneKeyEach(e)
    decreases |models|
  {
    if models != [] {
      var m := models[0];
      var groups := GroupsOf(m, TiersOf(m));
      if groups != [] {
        AssignPickers(m, groups, Primary(groups), 0, used);
      }
      OneKeyPerVariant(models[1..], EntriesOf(m, used).1);
    }
  }

  lemma AssignStep(m: Model, groups: seq<Group>, primary: nat, i: nat, used: set<string>, written: seq<Entry>)
    requires i < |groups|
    ensures var id := IdFor(m, groups[i], i == primary, used);
            var all, rest := Assign(m, groups, primary, i, used), Assign(m, groups, primary, i + 1, used + {id});
            written + all.0 == (written + [EntryFor(m, id, groups[i])]) + rest.0 && all.1 == rest.1
  {}

  /** The groups of one model. */
  method WriteGroups(m: Model, groups: seq<Group>, used: set<string>, out: map<string, Entry>, ghost written: seq<Entry>)
    returns (out': map<string, Entry>, used': set<string>, ghost written': seq<Entry>)
    requires groups != [] && m.id in used && out == Table(written)
    ensures var all := Assign(m, groups, Primary(groups), 0, used);
            written' == written + all.0 && used' == all.1
    ensures out' == Table(written') && used <= used'
  {
    out', used', written' := out, used, written;
    var primary := Primary(groups);
    ghost var all := Assign(m, groups, primary, 0, used);
    var i := 0;
    while i < |groups|
      invariant i <= |groups| && used <= used'
      invariant written + all.0 == written' + Assign(m, groups, primary, i, used').0
      invariant all.1 == Assign(m, groups, primary, i, used').1
      invariant out' == Table(written')
    {
      AssignStep(m, groups, primary, i, used', written');
      var g := groups[i];
      var id := m.id;
      if i != primary {
        id, used' := UniqueCatalogId(used', m.id, if g.suffix == "" then "-fast" else g.suffix);
      } else {
        assert used' + {id} == used';
      }
      var keys, _ := ModelInfoVariants(m.title, g.advertised);
      var e := Entry(id, g.tier, g.fast, g.variants, g.advertised, keys);
      TableGrows(written', e);
      out' := out'[id := e];
      written' := written' + [e];
      i := i + 1;
    }
    assert written' + [] == written';
  }

  lemma EntriesStep(models: seq<Model>, used: set<string>, written: seq<Entry>, k: nat)
    requires k < |models|
    ensures var (own, used') := EntriesOf(models[k], used);
            written + Entries(models[k..], used) == (written + own) + Entries(models[k + 1..], used')
  {
    assert models[k..][0] == models[k] && models[k..][1..] == models[k + 1..];
  }

  /** The catalog loop: every entry it writes goes into the table under an id of
      its own, so the table holds all of them. */
  method WriteCatalog(models: seq<Model>) returns (out: map<string, Entry>)
    requires forall i, j | 0 <= i < j < |models| :: models[i].id != models[j].id
    ensures out.Keys == set e | e in ModelsToConfig(models) :: e.id
    ensures forall e | e in ModelsToConfig(models) :: out[e.id] == e
  {
    out := map[];
    ghost var written: seq<Entry> := [];
    var used := set i | 0 <= i < |models| :: models[i].id;
    assert models[0..] == models;
    var k := 0;
    while k < |models|
      invariant k <= |models| && IdsOf(models) <= used
      invariant written + Entries(models[k..], used) == ModelsToConfig(models)
      invariant out == Table(written)
    {
      var m := models[k];
      assert m.id in IdsOf(models);
      EntriesStep(models, used, written, k);
      var groups := GroupsOf(m, TiersOf(m));
      if groups == [] {
        var e := Entry(m.id, Base, false, [], [], []);
        TableGrows(written, e);
        out := out[m.id := e];
        written := written + [e];
      } else {
        out, used, written := WriteGroups(m, groups, used, out, written);
      }
      k := k + 1;
    }
    assert models[k..] == [] && written + [] == written;
    NoIdWrittenTwice(models);
    TableHoldsAll(written);
  }

  /** Later entries replace earlier ones of the same id. */
  function Table(written: seq<Entry>): map<string, Entry> {
    if written == [] then map[] else Table(written[..|written| - 1])[written[|written| - 1].id := written[|written| - 1]]
  }

  lemma TableGrows(written: seq<Entry>, e: Entry)
    ensures Table(written + [e]) == Table(written)[e.id := e]
  {
    assert (written + [e])[..|written|] == written;
  }

  lemma {:induction false} TableHoldsAll(written: seq<Entry>)
    requires DistinctIds(written)
    ensures Table(written).Keys == set e | e in written :: e.id
    ensures forall e | e in written :: e.id in Table(written) && Table(written)[e.id] == e
  {
    if written != [] {
      TableHoldsAll(written[..|written| - 1]);
      assert written == written[..|written| - 1] + [written[|written| - 1]];
    }
  }
}
