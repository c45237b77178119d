/** The scale providers of a plot, by aesthetic: the ones the scale
    configurations give, date-time providers for aesthetics bound to date-time
    variables, and defaults for everything else that is mapped. */
module PlotConfigScaleProviders {
  import opened Common

  type Aes = string

  const X: Aes := "x"
  const Y: Aes := "y"

  /** Which aesthetics are positional along each axis (`Aes.isPositionalX`/`Y`). */
  datatype AesCatalogue = AesCatalogue(isPositionalX: Aes -> bool, isPositionalY: Aes -> bool)

  /** A scale provider: one a scale configuration created, a date-time
      provider, or the default one, for an aesthetic. */
  datatype ScaleProvider =
    | Configured(id: nat)
    | DateTimeProvider(aes: Aes, name: string)
    | DefaultProvider(aes: Aes)

  /** A scale configuration and the provider it creates. */
  datatype ScaleConfig = ScaleConfig(aes: Aes, provider: ScaleProvider)

  /** A variable binding, and whether its data frame holds date-times in that variable. */
  datatype VarBinding = VarBinding(aes: Aes, variable: string)
  datatype DataBinding = DataBinding(binding: VarBinding, isDateTime: bool)

  /** What the plot's aesthetic binding setup provides: its bindings, the
      mapped aesthetics other than stat-positional ones, and the default scale
      name of an aesthetic. */
  datatype AesBindingSetup = AesBindingSetup(
    dataByVarBinding: seq<DataBinding>,
    mappedAesWithoutStatPositional: set<Aes>,
    defaultScaleName: Aes -> string)

  /** The providers of the scale configurations, a later one replacing an
      earlier one for the same aesthetic. */
  function ConfiguredProviders(configs: seq<ScaleConfig>): map<Aes, ScaleProvider> {
    if |configs| == 0 then map[]
    else
      var last := configs[|configs| - 1];
      ConfiguredProviders(configs[..|configs| - 1])[last.aes := last.provider]
  }

  /** An aesthetic has a configured provider exactly when some configuration
      is for it, and it is the provider of the last such configuration. */
  lemma {:induction false} ConfiguredProvidersLast(configs: seq<ScaleConfig>, a: Aes)
    ensures a in ConfiguredProviders(configs) <==> exists i :: 0 <= i < |configs| && configs[i].aes == a
    ensures a in ConfiguredProviders(configs) ==>
      exists i :: 0 <= i < |configs| && configs[i].aes == a && ConfiguredProviders(configs)[a] == configs[i].provider &&
        forall j :: i < j < |configs| ==> configs[j].aes != a
  {
    if |configs| > 0 {
      var n := |configs| - 1;
      var init := configs[..n];
      ConfiguredProvidersLast(init, a);
      assert forall i :: 0 <= i < n ==> init[i] == configs[i];
      if configs[n].aes != a && a in ConfiguredProviders(configs) {
        var i :| 0 <= i < n && init[i].aes == a && ConfiguredProviders(init)[a] == init[i].provider &&
          forall j :: i < j < n ==> init[j].aes != a;
        assert configs[i].aes == a && ConfiguredProviders(configs)[a] == configs[i].provider;
      }
    }
  }

  /** The aesthetics bound to a date-time variable, in binding order. */
  function DateTimeAes(bindings: seq<DataBinding>): (r: seq<Aes>)
    ensures forall a :: a in r <==> exists i :: 0 <= i < |bindings| && bindings[i].isDateTime && bindings[i].binding.aes == a
  {
    if |bindings| == 0 then []
    else
      var init := bindings[..|bindings| - 1];
      var last := bindings[|bindings| - 1];
      assert forall i :: 0 <= i < |init| ==> init[i] == bindings[i];
      DateTimeAes(init) + (if last.isDateTime then [last.binding.aes] else [])
  }

  /** The axes with a positional aesthetic bound to a date-time variable. */
  function DateTimeAxisAes(catalogue: AesCatalogue, dateTimeAes: seq<Aes>): (r: seq<Aes>)
    ensures X in r <==> exists a :: a in dateTimeAes && catalogue.isPositionalX(a)
    ensures Y in r <==> exists a :: a in dateTimeAes && catalogue.isPositionalY(a)
    ensures forall a :: a in r ==> a == X || a == Y
  {
    (if exists a :: a in dateTimeAes && catalogue.isPositionalX(a) then [X] else []) +
    (if exists a :: a in dateTimeAes && catalogue.isPositionalY(a) then [Y] else [])
  }

  /** The elements of `xs` that are not keys of `m`, in order. */
  function WithoutKeys(xs: seq<Aes>, m: map<Aes, ScaleProvider>): (r: seq<Aes>)
    ensures forall a :: a in r <==> a in xs && a !in m
    ensures NoDuplicates(xs) ==> NoDuplicates(r)
  {
    if |xs| == 0 then []
    else
      var init := xs[..|xs| - 1];
      var last := xs[|xs| - 1];
      assert forall a :: a in xs <==> a in init || a == last;
      WithoutKeys(init, m) + (if last !in m then [last] else [])
  }

  /** The aesthetics that get a date-time provider: each date-time aesthetic
      and date-time axis once, unless a provider is configured for it. */
  function DateTimeCandidates(catalogue: AesCatalogue, bindings: seq<DataBinding>, configured: map<Aes, ScaleProvider>): seq<Aes> {
    var dateTimeAes := DateTimeAes(bindings);
    WithoutKeys(DistinctOf(dateTimeAes + DateTimeAxisAes(catalogue, dateTimeAes)), configured)
  }

  /** `m` with a date-time provider added under each of `candidates`. */
  function AddDateTime(m: map<Aes, ScaleProvider>, candidates: seq<Aes>, name: Aes -> string): map<Aes, ScaleProvider> {
    if |candidates| == 0 then m
    else
      var last := candidates[|candidates| - 1];
      AddDateTime(m, candidates[..|candidates| - 1], name)[last := DateTimeProvider(last, name(last))]
  }

  /** The date-time providers go under the candidates and nowhere else. */
  lemma {:induction false} AddDateTimeEntries(m: map<Aes, ScaleProvider>, candidates: seq<Aes>, name: Aes -> string, a: Aes)
    ensures a in AddDateTime(m, candidates, name) <==> a in m || a in candidates
    ensures a in candidates ==> AddDateTime(m, candidates, name)[a] == DateTimeProvider(a, name(a))
    ensures a in m && a !in candidates ==> AddDateTime(m, candidates, name)[a] == m[a]
  {
    if |candidates| > 0 {
      var init := candidates[..|candidates| - 1];
      AddDateTimeEntries(m, init, name, a);
      assert candidates == init + [candidates[|candidates| - 1]];
    }
  }

  /** The axis whose scale an aesthetic uses: X for positional-X aesthetics,
      Y for positional-Y ones, and otherwise its own. */
  function ScaleAes(catalogue: AesCatalogue, a: Aes): Aes {
    if catalogue.isPositionalX(a) then X
    else if catalogue.isPositionalY(a) then Y
    else a
  }

  /** `associateWith` over the mapped aesthetics and the two axes: the
      provider of each one's scale aesthetic, or the default one. */
  function AssociateProviders(catalogue: AesCatalogue, aesSet: set<Aes>, byAes: map<Aes, ScaleProvider>): (r: map<Aes, ScaleProvider>)
    ensures r.Keys == aesSet
    ensures forall a :: a in aesSet && ScaleAes(catalogue, a) in byAes ==> r[a] == byAes[ScaleAes(catalogue, a)]
    ensures forall a :: a in aesSet && ScaleAes(catalogue, a) !in byAes ==> r[a] == DefaultProvider(ScaleAes(catalogue, a))
  {
    map a | a in aesSet ::
      var scaleAes := ScaleAes(catalogue, a);
      if scaleAes in byAes then byAes[scaleAes] else DefaultProvider(scaleAes)
  }

  /** The provider map the method below builds. */
  function ScaleProviders(catalogue: AesCatalogue, configs: seq<ScaleConfig>, setup: AesBindingSetup): map<Aes, ScaleProvider> {
    var configured := ConfiguredProviders(configs);
    var byAes := AddDateTime(configured, DateTimeCandidates(catalogue, setup.dataByVarBinding, configured), setup.defaultScaleName);
    AssociateProviders(catalogue, setup.mappedAesWithoutStatPositional + {X, Y}, byAes)
  }

  /** `createScaleProviders`, given the aesthetic binding setup of the layers. */
  method CreateScaleProviders(catalogue: AesCatalogue, scaleConfigs: seq<ScaleConfig>, setup: AesBindingSetup)
    returns (r: map<Aes, ScaleProvider>)
    ensures r == ScaleProviders(catalogue, scaleConfigs, setup)
  {
    var scaleProviderByAes: map<Aes, ScaleProvider> := map[];
    var i := 0;
    while i < |scaleConfigs|
      invariant 0 <= i <= |scaleConfigs|
      invariant scaleProviderByAes == ConfiguredProviders(scaleConfigs[..i])
    {
      assert scaleConfigs[..i + 1][..i] == scaleConfigs[..i];
      scaleProviderByAes := scaleProviderByAes[scaleConfigs[i].aes := scaleConfigs[i].provider];
      i := i + 1;
    }
    assert scaleConfigs[..i] == scaleConfigs;
    var configured := scaleProviderByAes;

    var candidates := DateTimeCandidates(catalogue, setup.dataByVarBinding, configured);
    var k := 0;
    while k < |candidates|
      invariant 0 <= k <= |candidates|
      invariant scaleProviderByAes == AddDateTime(configured, candidates[..k], setup.defaultScaleName)
    {
      assert candidates[..k + 1][..k] == candidates[..k];
      var a := candidates[k];
      scaleProviderByAes := scaleProviderByAes[a := DateTimeProvider(a, setup.defaultScaleName(a))];
      k := k + 1;
    }
    assert candidates[..k] == candidates;

    r := AssociateProviders(catalogue, setup.mappedAesWithoutStatPositional + {X, Y}, scaleProviderByAes);
  }

  /** A configured provider is never replaced by a date-time one: an
      aesthetic whose scale aesthetic has a scale configuration gets the
      provider of the last such configuration. */
  lemma ConfiguredWins(catalogue: AesCatalogue, configs: seq<ScaleConfig>, setup: AesBindingSetup, a: Aes, i: nat)
    requires a in setup.mappedAesWithoutStatPositional + {X, Y}
    requires i < |configs| && configs[i].aes == ScaleAes(catalogue, a)
    requires forall j :: i < j < |configs| ==> configs[j].aes != configs[i].aes
    ensures ScaleProviders(catalogue, configs, setup)[a] == configs[i].provider
  {
    var s := ScaleAes(catalogue, a);
    var configured := ConfiguredProviders(configs);
    ConfiguredProvidersLast(configs, s);
    var candidates := DateTimeCandidates(catalogue, setup.dataByVarBinding, configured);
    AddDateTimeEntries(configured, candidates, setup.defaultScaleName, s);
  }

  /** An aesthetic whose scale aesthetic has no configuration gets a date-time
      provider when that scale aesthetic is bound to a date-time variable (or
      is an axis with a date-time positional binding), and the default
      provider otherwise. */
  lemma UnconfiguredProvider(catalogue: AesCatalogue, configs: seq<ScaleConfig>, setup: AesBindingSetup, a: Aes)
    requires a in setup.mappedAesWithoutStatPositional + {X, Y}
    requires forall i :: 0 <= i < |configs| ==> configs[i].aes != ScaleAes(catalogue, a)
    ensures var s := ScaleAes(catalogue, a);
      var dateTimeAes := DateTimeAes(setup.dataByVarBinding);
      ScaleProviders(catalogue, configs, setup)[a] ==
        if s in dateTimeAes || s in DateTimeAxisAes(catalogue, dateTimeAes) then DateTimeProvider(s, setup.defaultScaleName(s))
        else DefaultProvider(s)
  {
    var s := ScaleAes(catalogue, a);
    var configured := ConfiguredProviders(configs);
    ConfiguredProvidersLast(configs, s);
    var dateTimeAes := DateTimeAes(setup.dataByVarBinding);
    DistinctOfElements(dateTimeAes + DateTimeAxisAes(catalogue, dateTimeAes));
    var candidates := DateTimeCandidates(catalogue, setup.dataByVarBinding, configured);
    AddDateTimeEntries(configured, candidates, setup.defaultScaleName, s);
  }
}
