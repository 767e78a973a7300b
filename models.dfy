/** The model catalog (src/config/models.ts). */
module Models {
  import opened Wrappers
  import Seqs

  /** `ModelOption`; the optional fields are `None` when the object omits them. */
  datatype ModelOption = ModelOption(
    value: string,
    caption: string,  // the `label` field (`label` is a Dafny keyword)
    description: Option<string>,
    provider: Option<string>,
    maxTokens: Option<int>)

  /** `availableModels`. */
  const AvailableModels: seq<ModelOption> := [
    ModelOption(
      "deepseek-ai/DeepSeek-R1-Distill-Qwen-7B",
      "DeepSeek R1 Distill Qwen (7B)",
      Some("由DeepSeek优化的轻量级模型，快速且响应高效"),
      Some("DeepSeek AI"),
      Some(2000))
  ]

  /** `getDefaultModel()`: the first catalog entry, which the catalog finds again by its value. */
  function DefaultModel(): (m: ModelOption)
    ensures m in AvailableModels
    ensures GetModelByValue(m.value) == Some(m)
  {
    AvailableModels[0]
  }

  /** `availableModels.find(model => model.value === value)` over any catalog. */
  function FindModel(catalog: seq<ModelOption>, value: string): (r: Option<ModelOption>)
    ensures r.Some? ==> r.value in catalog && r.value.value == value
    ensures r.Some? ==> exists i :: (0 <= i < |catalog| && catalog[i] == r.value &&
      forall j :: 0 <= j < i ==> catalog[j].value != value)
    ensures r.None? <==> forall i :: 0 <= i < |catalog| ==> catalog[i].value != value
  {
    Seqs.FindFirst(catalog, (m: ModelOption) => m.value == value)
  }

  /** `getModelByValue(value)`. */
  function GetModelByValue(value: string): (r: Option<ModelOption>)
    ensures r.Some? ==> r.value in AvailableModels && r.value.value == value
    ensures r.None? <==> forall i :: 0 <= i < |AvailableModels| ==> AvailableModels[i].value != value
  {
    FindModel(AvailableModels, value)
  }

  /** `.filter(Boolean) as string[]` on provider values: drops `undefined` and `''`. */
  function TruthyProviders(s: seq<Option<string>>): (r: seq<string>)
    ensures forall i :: 0 <= i < |r| ==> r[i] != "" && Some(r[i]) in s
    ensures forall i :: 0 <= i < |s| && s[i].Some? && s[i].value != "" ==> s[i].value in r
  {
    if |s| == 0 then []
    else
      var rest := TruthyProviders(s[1..]);
      if s[0].Some? && s[0].value != "" then [s[0].value] + rest else rest
  }

  /** The providers column of a catalog: `catalog.map(model => model.provider)`. */
  function ProviderColumn(catalog: seq<ModelOption>): (r: seq<Option<string>>)
    ensures |r| == |catalog|
    ensures forall i :: 0 <= i < |catalog| ==> r[i] == catalog[i].provider
  {
    Seqs.Map(catalog, (m: ModelOption) => m.provider)
  }

  /** `Array.from(new Set(catalog.map(m => m.provider))).filter(Boolean)` over any catalog. */
  function Providers(catalog: seq<ModelOption>): (r: seq<string>)
    ensures forall i :: 0 <= i < |r| ==> r[i] != "" && Some(r[i]) in ProviderColumn(catalog)
  {
    TruthyProviders(Seqs.Distinct(ProviderColumn(catalog)))
  }

  /** `modelProviders`. */
  function ModelProviders(): (r: seq<string>)
    ensures r == ["DeepSeek AI"]
  {
    Providers(AvailableModels)
  }

  /** Filtering truthy providers keeps distinct values distinct and in their relative order. */
  lemma {:induction false} TruthyProvidersOrdered(s: seq<Option<string>>)
    requires Seqs.NoDuplicates(s)
    ensures Seqs.NoDuplicates(TruthyProviders(s))
    ensures forall i, j :: 0 <= i < j < |TruthyProviders(s)| ==>
      Seqs.IndexOf(s, Some(TruthyProviders(s)[i])) < Seqs.IndexOf(s, Some(TruthyProviders(s)[j]))
  {
    if |s| > 0 {
      var rest := TruthyProviders(s[1..]);
      var r := TruthyProviders(s);
      TruthyProvidersOrdered(s[1..]);
      forall x | Some(x) in s[1..]
        ensures Seqs.IndexOf(s, Some(x)) == Seqs.IndexOf(s[1..], Some(x)) + 1
      {
        var k := Seqs.IndexOf(s[1..], Some(x));
        assert s[..k + 1] == [s[0]] + s[1..][..k];
        Seqs.IndexOfUnique(s, Some(x), k + 1);
      }
      if s[0].Some? && s[0].value != "" {
        assert r == [s[0].value] + rest;
        Seqs.IndexOfUnique(s, s[0], 0);
        forall i | 0 <= i < |rest| ensures rest[i] != s[0].value {
          assert Some(rest[i]) in s[1..];
        }
      }
    }
  }

  /**
   * `modelProviders` lists exactly the defined, non-empty providers of the
   * catalog, each once, in the order of their first occurrence.
   */
  lemma ProvidersSpec(catalog: seq<ModelOption>)
    ensures forall p :: p in Providers(catalog) <==>
      p != "" && exists i :: 0 <= i < |catalog| && catalog[i].provider == Some(p)
    ensures Seqs.NoDuplicates(Providers(catalog))
    ensures forall i, j :: 0 <= i < j < |Providers(catalog)| ==>
      Seqs.IndexOf(ProviderColumn(catalog), Some(Providers(catalog)[i])) <
      Seqs.IndexOf(ProviderColumn(catalog), Some(Providers(catalog)[j]))
  {
    var column := ProviderColumn(catalog);
    var d := Seqs.Distinct(column);
    var r := Providers(catalog);
    TruthyProvidersOrdered(d);
    Seqs.DistinctKeepsFirstOccurrenceOrder(column);
    forall p | p in r
      ensures p != "" && exists i :: 0 <= i < |catalog| && catalog[i].provider == Some(p)
    {
      var i := Seqs.IndexOf(column, Some(p));
      assert catalog[i].provider == Some(p);
    }
    forall p | p != "" && exists i :: 0 <= i < |catalog| && catalog[i].provider == Some(p)
      ensures p in r
    {
      var i :| 0 <= i < |catalog| && catalog[i].provider == Some(p);
      assert column[i] == Some(p);
      var k := Seqs.IndexOf(d, Some(p));
      assert d[k].Some? && d[k].value == p;
    }
    forall i, j | 0 <= i < j < |r|
      ensures Seqs.IndexOf(column, Some(r[i])) < Seqs.IndexOf(column, Some(r[j]))
    {
      var a := Seqs.IndexOf(d, Some(r[i]));
      var b := Seqs.IndexOf(d, Some(r[j]));
      assert a < b;
    }
  }

  /** `availableModels.filter(model => model.provider === provider)` over any catalog. */
  function ModelsByProvider(catalog: seq<ModelOption>, provider: string): (r: seq<ModelOption>)
    ensures |r| <= |catalog|
    ensures forall i :: 0 <= i < |r| ==> r[i].provider == Some(provider) && r[i] in catalog
    ensures forall i :: 0 <= i < |catalog| && catalog[i].provider == Some(provider) ==> catalog[i] in r
  {
    Seqs.Filter(catalog, (m: ModelOption) => m.provider == Some(provider))
  }

  /** Selecting by provider from a concatenated catalog keeps the catalog's order. */
  lemma ModelsByProviderKeepsOrder(a: seq<ModelOption>, b: seq<ModelOption>, provider: string)
    ensures ModelsByProvider(a + b, provider) == ModelsByProvider(a, provider) + ModelsByProvider(b, provider)
  {
    Seqs.FilterAppend(a, b, (m: ModelOption) => m.provider == Some(provider));
  }

  /** A one-model catalog selects that model exactly when it has the provider. */
  lemma ModelsByProviderSingleton(m: ModelOption, provider: string)
    ensures ModelsByProvider([m], provider) == if m.provider == Some(provider) then [m] else []
  {
    assert [m][1..] == [];
  }

  /** `getModelsByProvider(provider)`. */
  function GetModelsByProvider(provider: string): (r: seq<ModelOption>)
    ensures |r| <= |AvailableModels|
    ensures forall i :: 0 <= i < |r| ==> r[i].provider == Some(provider) && r[i] in AvailableModels
    ensures forall i :: 0 <= i < |AvailableModels| && AvailableModels[i].provider == Some(provider) ==>
      AvailableModels[i] in r
  {
    ModelsByProvider(AvailableModels, provider)
  }

  /** Every listed provider has at least one model. */
  lemma ListedProvidersHaveModels(catalog: seq<ModelOption>, provider: string)
    requires provider in Providers(catalog)
    ensures |ModelsByProvider(catalog, provider)| > 0
  {
  }

  /** The shipped catalog has one provider, and the default model's maxTokens is 2000. */
  lemma ShippedCatalog()
    ensures ModelProviders() == ["DeepSeek AI"]
    ensures DefaultModel().maxTokens == Some(2000)
  {
  }
}
