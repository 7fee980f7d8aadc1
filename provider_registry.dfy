/**
 * The provider registry: the three providers under their lower-case names,
 * looked up case-insensitively.
 */
module ProviderRegistry {
  import opened Wrappers
  import opened Text

  datatype ProviderKind = OpenAi | Anthropic | Gemini

  /** `_REGISTRY`, in insertion order. */
  const Registry: seq<(string, ProviderKind)> := [("openai", OpenAi), ("anthropic", Anthropic), ("gemini", Gemini)]

  /** `dict.get`: the provider registered under `key`, if any. */
  function Get(registry: seq<(string, ProviderKind)>, key: string): (r: Option<ProviderKind>)
    ensures r.Some? <==> exists k | 0 <= k < |registry| :: registry[k].0 == key
    ensures r.Some? ==> exists k | 0 <= k < |registry| :: registry[k] == (key, r.value)
  {
    if registry == [] then None
    else if registry[0].0 == key then Some(registry[0].1)
    else
      var r := Get(registry[1..], key);
      assert forall k | 1 <= k < |registry| :: registry[1..][k - 1] == registry[k];
      r
  }

  /** `available_providers()`: the registry's names, in registration order. */
  function AvailableProviders(): (names: seq<string>)
    ensures |names| == |Registry|
    ensures forall k | 0 <= k < |Registry| :: names[k] == Registry[k].0
  {
    seq(|Registry|, k requires 0 <= k < |Registry| => Registry[k].0)
  }

  /** The error `get_provider` raises for an unknown name. */
  function UnknownProvider(name: string): string
  {
    "Unknown provider '" + name + "'. Supported: " + Join(AvailableProviders(), ", ")
  }

  /** `get_provider(name)`, as the provider it resolves to or the `ValueError` it raises. */
  function Resolve(name: string): (r: Result<ProviderKind>)
    ensures r.Ok? <==> Lower(name) in AvailableProviders()
    ensures r.Err? ==> r.error == UnknownProvider(name)
  {
    match Get(Registry, Lower(name))
    case Some(kind) => Ok(kind)
    case None => Err(UnknownProvider(name))
  }

  /** One instance of a provider class; providers keep no state of their own. */
  class Provider {
    const kind: ProviderKind

    constructor (kind: ProviderKind)
      ensures this.kind == kind
    {
      this.kind := kind;
    }
  }

  /** `get_provider(name)`: a new instance on every call, or the `ValueError`. */
  method GetProvider(name: string) returns (r: Result<Provider>)
    ensures r.Ok? <==> Resolve(name).Ok?
    ensures r.Ok? ==> fresh(r.value) && r.value.kind == Resolve(name).value
    ensures r.Err? ==> r.error == Resolve(name).error
  {
    var cls := Get(Registry, Lower(name));
    if cls.None? {
      var supported := Join(AvailableProviders(), ", ");
      return Err("Unknown provider '" + name + "'. Supported: " + supported);
    }
    var p := new Provider(cls.value);
    return Ok(p);
  }

  /** The three names, in this order. */
  lemma AvailableAreTheThree()
    ensures AvailableProviders() == ["openai", "anthropic", "gemini"]
  {
    var names := AvailableProviders();
    assert names[0] == "openai" && names[1] == "anthropic" && names[2] == "gemini";
  }

  /** The unknown-name error lists the supported names in registry order. */
  lemma UnknownProviderText(name: string)
    ensures UnknownProvider(name) == "Unknown provider '" + name + "'. Supported: openai, anthropic, gemini"
  {
    AvailableAreTheThree();
    JoinCons("openai", ["anthropic", "gemini"], ", ");
    JoinCons("anthropic", ["gemini"], ", ");
    assert ["openai", "anthropic", "gemini"] == ["openai"] + ["anthropic", "gemini"];
    assert ["anthropic", "gemini"] == ["anthropic"] + ["gemini"];
  }

  /** Lowering twice is lowering once. */
  lemma LowerIdempotent(s: string)
    ensures Lower(Lower(s)) == Lower(s)
  {
  }

  /** Letter case of the name does not matter: a name and its lower-case form resolve alike. */
  lemma ResolveIgnoresCase(name: string)
    ensures Resolve(Lower(name)).Ok? == Resolve(name).Ok?
    ensures Resolve(name).Ok? ==> Resolve(Lower(name)) == Resolve(name)
  {
    LowerIdempotent(name);
  }

  /** Each registered name, in any letter case, resolves to its provider. */
  lemma ResolveKnown(name: string)
    ensures Lower(name) == "openai" ==> Resolve(name) == Ok(OpenAi)
    ensures Lower(name) == "anthropic" ==> Resolve(name) == Ok(Anthropic)
    ensures Lower(name) == "gemini" ==> Resolve(name) == Ok(Gemini)
  {
  }
}
