/** `EnvManager`: the domain registry, the active value source, the typed
    lookups, and the non-optional convenience functions built on them. */
module Env {
  import opened Optionals
  import opened Parsers
  import opened Resolution
  import opened Registry

  /** What a scoped body sees of the manager, and what it leaves behind. */
  datatype Snapshot = Snapshot(domains: seq<string>, provider: Environment)

  /** How a scoped body ends: it returns a value or throws an error. */
  datatype Outcome<T, E> = Returned(value: T) | Threw(error: E)

  class EnvManager {
    /** The registered domains, first registered first searched. */
    var domains: seq<string>
    /** The active value source. */
    var provider: Environment

    /** A manager with no domains, reading from `provider`; the process or
        package environment the shared instance starts with is passed in. */
    constructor (provider: Environment)
      ensures domains == [] && this.provider == provider
    {
      domains := [];
      this.provider := provider;
    }

    /** `setEnvironmentProvider`: later lookups read from `provider`. */
    method SetEnvironmentProvider(provider: Environment)
      modifies this
      ensures this.provider == provider
      ensures domains == old(domains)
    {
      this.provider := provider;
    }

    /** `register(domain:)`: appends, duplicates allowed, earlier entries kept. */
    method Register(domain: string)
      modifies this
      ensures domains == old(domains) + [domain]
      ensures provider == old(provider)
    {
      domains := domains + [domain];
    }

    /** `withDomain(_:perform:)`: appends `domain`, runs the body on the
        manager's state, then removes every entry equal to `domain` from the
        state the body left, whether the body returned or threw; the body's
        outcome is passed on unchanged. */
    method WithDomain<T, E>(domain: string, perform: Snapshot -> (Snapshot, Outcome<T, E>)) returns (outcome: Outcome<T, E>)
      modifies this
      ensures var (after, result) := perform(Snapshot(old(domains) + [domain], old(provider)));
        && outcome == result
        && domains == Without(after.domains, domain)
        && provider == after.provider
      ensures perform(Snapshot(old(domains) + [domain], old(provider))).0.domains == old(domains) + [domain] ==>
        domains == Without(old(domains), domain) && (domain !in old(domains) ==> domains == old(domains))
    {
      ghost var before := domains;
      domains := domains + [domain];
      var (after, result) := perform(Snapshot(domains, provider));
      domains := after.domains;
      provider := after.provider;
      // the deferred cleanup, run on both exits of the body
      domains := Without(domains, domain);
      outcome := result;
      ScopedRegistrationRestores(before, domain);
    }

    /** `envValue`: tries the candidate keys in order and returns the parse of
        the first one whose value is present and parses, else the default. */
    method EnvValue<T>(rawKey: string, defaultValue: Option<T>, searchInDomain: bool, parser: string -> Option<T>) returns (r: Option<T>)
      ensures r == Resolve(CandidateKeys(domains, rawKey, searchInDomain), provider, parser, defaultValue)
    {
      var keys := CandidateKeys(domains, rawKey, searchInDomain);
      for i := 0 to |keys|
        invariant Resolve(keys[i..], provider, parser, defaultValue) == Resolve(keys, provider, parser, defaultValue)
      {
        assert keys[i..][0] == keys[i] && keys[i..][1..] == keys[i + 1..];
        var hit := ParseEnvValue(provider, parser, keys[i]);
        if hit.Some? {
          return Some(hit.value.1);
        }
      }
      assert keys[|keys|..] == [];
      return defaultValue;
    }

    /** `envBoolValue(rawKey:default:searchInDomain:)`. */
    method EnvBoolValue(rawKey: string, defaultValue: Option<bool> := None, searchInDomain: bool) returns (r: Option<bool>)
      ensures r == Resolve(CandidateKeys(domains, rawKey, searchInDomain), provider, ParseBool, defaultValue)
    {
      r := EnvValue(rawKey, defaultValue, searchInDomain, ParseBool);
    }

    /** `envIntValue(rawKey:default:searchInDomain:)`. */
    method EnvIntValue(rawKey: string, defaultValue: Option<Int64> := None, searchInDomain: bool) returns (r: Option<Int64>)
      ensures r == Resolve(CandidateKeys(domains, rawKey, searchInDomain), provider, ParseInt, defaultValue)
    {
      r := EnvValue(rawKey, defaultValue, searchInDomain, ParseInt);
    }

    /** `envStringValue(rawKey:default:searchInDomain:)`. */
    method EnvStringValue(rawKey: string, defaultValue: Option<string> := None, searchInDomain: bool) returns (r: Option<string>)
      ensures r == Resolve(CandidateKeys(domains, rawKey, searchInDomain), provider, ParseString, defaultValue)
    {
      r := EnvValue(rawKey, defaultValue, searchInDomain, ParseString);
    }
  }

  // ---------------------------------------------------------------- convenience functions

  /** The free function `envBoolValue(_:default:searchInDomain:)`, on the manager
      given instead of the shared one: the force-unwrap never fails. */
  method EnvBoolValue(manager: EnvManager, key: string, defaultValue: bool := false, searchInDomain: bool := true) returns (r: bool)
    ensures Some(r) == Resolve(CandidateKeys(manager.domains, key, searchInDomain), manager.provider, ParseBool, Some(defaultValue))
  {
    var value := manager.EnvBoolValue(key, Some(defaultValue), searchInDomain := searchInDomain);
    ResolveWithDefaultIsSome(CandidateKeys(manager.domains, key, searchInDomain), manager.provider, ParseBool, Some(defaultValue));
    r := value.value;
  }

  /** The free function `envIntValue(_:default:searchInDomain:)`. */
  method EnvIntValue(manager: EnvManager, key: string, defaultValue: Int64 := 0, searchInDomain: bool := true) returns (r: Int64)
    ensures Some(r) == Resolve(CandidateKeys(manager.domains, key, searchInDomain), manager.provider, ParseInt, Some(defaultValue))
  {
    var value := manager.EnvIntValue(key, Some(defaultValue), searchInDomain := searchInDomain);
    ResolveWithDefaultIsSome(CandidateKeys(manager.domains, key, searchInDomain), manager.provider, ParseInt, Some(defaultValue));
    r := value.value;
  }

  /** The free function `envStringValue(_:default:searchInDomain:)`. */
  method EnvStringValue(manager: EnvManager, key: string, defaultValue: string, searchInDomain: bool := true) returns (r: string)
    ensures Some(r) == Resolve(CandidateKeys(manager.domains, key, searchInDomain), manager.provider, ParseString, Some(defaultValue))
  {
    var value := manager.EnvStringValue(key, Some(defaultValue), searchInDomain := searchInDomain);
    ResolveWithDefaultIsSome(CandidateKeys(manager.domains, key, searchInDomain), manager.provider, ParseString, Some(defaultValue));
    r := value.value;
  }

  /** The free function `envStringValue(_:searchInDomain:)`, without a default. */
  method EnvOptionalStringValue(manager: EnvManager, key: string, searchInDomain: bool := true) returns (r: Option<string>)
    ensures r == Resolve(CandidateKeys(manager.domains, key, searchInDomain), manager.provider, ParseString, None)
  {
    r := manager.EnvStringValue(key, searchInDomain := searchInDomain);
  }
}
