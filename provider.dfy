/**
 * components/provider/index.ts: a process-wide registry of AWS providers,
 * created at most once per (project, stack, profile, region). The Pulumi
 * runtime's getProject() and getStack() are parameters here.
 */
module Provider {
  import opened Wrappers
  import Text

  const DefaultRegion := "ap-northeast-2"
  const DefaultProfile := "default"

  /** A falsy argument (absent or the empty string) takes the default. */
  function OrDefault(x: Option<string>, d: string): (r: string)
    ensures (x.None? || x == Some("")) ==> r == d
    ensures (x.Some? && x.value != "") ==> r == x.value
  {
    if x.None? || x.value == "" then d else x.value
  }

  /** The provider's resource name, `profile-region`. */
  function ProviderName(profile: string, region: string): string {
    profile + "-" + region
  }

  /** The registry key, `project:stack:name`. */
  function ProviderKey(project: string, stack: string, name: string): string {
    project + ":" + stack + ":" + name
  }

  /** A key splits back into its project, stack and provider name when project and stack hold no colon. */
  function SplitKey(key: string): (string, string, string) {
    var i := Text.IndexOf(key, ':');
    var rest := if i < |key| then key[i + 1..] else "";
    var j := Text.IndexOf(rest, ':');
    (key[..i], rest[..j], if j < |rest| then rest[j + 1..] else "")
  }

  lemma SplitProviderKey(project: string, stack: string, name: string)
    requires ':' !in project && ':' !in stack
    ensures SplitKey(ProviderKey(project, stack, name)) == (project, stack, name)
  {
    var key := ProviderKey(project, stack, name);
    Text.IndexOfAfter(project, ":" + stack + ":" + name, ':');
    assert key == project + (":" + stack + ":" + name);
    var rest := key[|project| + 1..];
    assert rest == stack + (":" + name);
    Text.IndexOfAfter(stack, ":" + name, ':');
    assert key[..|project|] == project;
    assert rest[..|stack|] == stack;
    assert rest[|stack| + 1..] == name;
  }

  /**
   * Calls for different projects or stacks never share an entry, as long as
   * project and stack names contain no colon (Pulumi's naming rules allow none).
   */
  lemma KeyInjective(p1: string, s1: string, n1: string, p2: string, s2: string, n2: string)
    requires ':' !in p1 && ':' !in s1 && ':' !in p2 && ':' !in s2
    requires ProviderKey(p1, s1, n1) == ProviderKey(p2, s2, n2)
    ensures p1 == p2 && s1 == s2 && n1 == n2
  {
    SplitProviderKey(p1, s1, n1);
    SplitProviderKey(p2, s2, n2);
  }

  /** Without that naming rule keys do collide. */
  lemma KeyCollisionWithColon()
    ensures ProviderKey("a:b", "c", "default-ap-northeast-2") == ProviderKey("a", "b:c", "default-ap-northeast-2")
  {
  }

  /** An AWS provider resource: its resource name, region and profile, and the region as its one alias. */
  class AwsProvider {
    const name: string
    const region: string
    const profile: string
    const aliases: seq<string>

    constructor (name: string, region: string, profile: string)
      ensures this.name == name && this.region == region && this.profile == profile && aliases == [region]
    {
      this.name, this.region, this.profile := name, region, profile;
      aliases := [region];
    }
  }

  /** The module-level `providers` record, and every provider ever constructed. */
  class Registry {
    var providers: map<string, AwsProvider>
    var created: seq<AwsProvider>

    /** Each entry is a provider created by this registry, each created once and filed under one key. */
    ghost predicate Valid()
      reads this
    {
      && (forall k :: k in providers ==> providers[k] in created)
      && (forall i, j :: 0 <= i < j < |created| ==> created[i] != created[j])
      && (forall k1, k2 :: k1 in providers && k2 in providers && k1 != k2 ==> providers[k1] != providers[k2])
      && |created| == |providers|
    }

    constructor ()
      ensures Valid() && providers == map[] && created == []
    {
      providers, created := map[], [];
    }

    method GetProvider(project: string, stack: string, region: Option<string>, profile: Option<string>)
      returns (p: AwsProvider)
      requires Valid()
      modifies this
      ensures Valid()
      ensures var key := ProviderKey(project, stack, ProviderName(OrDefault(profile, DefaultProfile), OrDefault(region, DefaultRegion)));
        && key in providers && p == providers[key]
        && old(providers).Keys <= providers.Keys
        && (forall k :: k in old(providers) ==> providers[k] == old(providers)[k])
        && (key in old(providers) ==> providers == old(providers) && created == old(created))
        && (key !in old(providers) ==>
              && fresh(p) && providers == old(providers)[key := p] && created == old(created) + [p]
              && p.name == ProviderName(OrDefault(profile, DefaultProfile), OrDefault(region, DefaultRegion))
              && p.region == OrDefault(region, DefaultRegion) && p.profile == OrDefault(profile, DefaultProfile)
              && p.aliases == [p.region])
    {
      var r := OrDefault(region, DefaultRegion);
      var pr := OrDefault(profile, DefaultProfile);
      var name := ProviderName(pr, r);
      var key := ProviderKey(project, stack, name);
      if key !in providers {
        var q := new AwsProvider(name, r, pr);
        providers := providers[key := q];
        created := created + [q];
        assert |providers| == |old(providers)| + 1;
      }
      p := providers[key];
    }
  }

  /** Asking twice with the same arguments yields the same provider and creates nothing the second time. */
  method GetProviderIdempotent(reg: Registry, project: string, stack: string, region: Option<string>, profile: Option<string>)
    returns (p1: AwsProvider, p2: AwsProvider)
    requires reg.Valid()
    modifies reg
    ensures reg.Valid() && p1 == p2
    ensures var key := ProviderKey(project, stack, ProviderName(OrDefault(profile, DefaultProfile), OrDefault(region, DefaultRegion)));
      && reg.created == old(reg.created) + (if key in old(reg.providers) then [] else [p1])
      && reg.providers == old(reg.providers)[key := p1]
  {
    p1 := reg.GetProvider(project, stack, region, profile);
    var before := reg.created;
    p2 := reg.GetProvider(project, stack, region, profile);
    assert reg.created == before;
  }

  /** Two stacks of one project get separate providers for the same region and profile. */
  method SeparateStacks(reg: Registry, project: string, s1: string, s2: string)
    returns (p1: AwsProvider, p2: AwsProvider)
    requires reg.Valid() && ':' !in project && ':' !in s1 && ':' !in s2 && s1 != s2
    modifies reg
    ensures reg.Valid()
    ensures var n := ProviderName(DefaultProfile, DefaultRegion);
      && ProviderKey(project, s1, n) != ProviderKey(project, s2, n)
      && ProviderKey(project, s1, n) in reg.providers && reg.providers[ProviderKey(project, s1, n)] == p1
      && ProviderKey(project, s2, n) in reg.providers && reg.providers[ProviderKey(project, s2, n)] == p2
    ensures p1 != p2
  {
    var n := ProviderName(DefaultProfile, DefaultRegion);
    p1 := reg.GetProvider(project, s1, None, None);
    p2 := reg.GetProvider(project, s2, None, None);
    if ProviderKey(project, s1, n) == ProviderKey(project, s2, n) {
      KeyInjective(project, s1, n, project, s2, n);
    }
  }
}
