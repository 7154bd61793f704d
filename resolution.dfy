/** Candidate-key construction and the precedence search behind `envValue`:
    the first candidate whose value is present AND parses wins; otherwise
    the caller's default (possibly `None`) is the answer. */
module Resolution {
  import opened Optionals
  import opened Text
  import opened Parsers

  /** The value source, `EnvironmentProvider.value(forKey:)`, as a finite map:
      a key outside the map reads as `nil`. */
  type Environment = map<string, string>

  // ---------------------------------------------------------------- keys

  /** The lookup key of `rawKey` inside `domain`: `UPPER(domain) + "_" + rawKey`. */
  function QualifiedKey(domain: string, rawKey: string): (key: string)
    ensures |key| == |domain| + 1 + |rawKey|
    ensures key[..|domain|] == Upper(domain) && key[|domain|] == '_' && key[|domain| + 1..] == rawKey
  {
    Upper(domain) + "_" + rawKey
  }

  /** `domains.map { QualifiedKey($0, rawKey) }`. */
  function DomainKeys(domains: seq<string>, rawKey: string): (keys: seq<string>)
    ensures |keys| == |domains|
    ensures forall i :: 0 <= i < |domains| ==> keys[i] == QualifiedKey(domains[i], rawKey)
  {
    if domains == [] then [] else [QualifiedKey(domains[0], rawKey)] + DomainKeys(domains[1..], rawKey)
  }

  /** The candidate keys, in the order they are tried: one qualified key per
      registered domain, in registration order, when domain search is on;
      only the raw key when it is off, whatever domains are registered. */
  function CandidateKeys(domains: seq<string>, rawKey: string, searchInDomain: bool): (keys: seq<string>)
    ensures searchInDomain ==> |keys| == |domains|
    ensures searchInDomain ==> forall i :: 0 <= i < |domains| ==> keys[i] == QualifiedKey(domains[i], rawKey)
    ensures !searchInDomain ==> keys == [rawKey]
  {
    if searchInDomain then DomainKeys(domains, rawKey) else [rawKey]
  }

  /** Registering one more domain adds one candidate, at the end. */
  lemma {:induction false} DomainKeysAppend(domains: seq<string>, domain: string, rawKey: string)
    ensures DomainKeys(domains + [domain], rawKey) == DomainKeys(domains, rawKey) + [QualifiedKey(domain, rawKey)]
  {
    if domains != [] {
      assert (domains + [domain])[1..] == domains[1..] + [domain];
      DomainKeysAppend(domains[1..], domain, rawKey);
    }
  }

  // ---------------------------------------------------------------- search

  /** The candidate `key` counts as a hit: the source has a value there and
      the parser accepts it. */
  predicate Parses<T>(env: Environment, parser: string -> Option<T>, key: string)
  {
    ParseEnvValue(env, parser, key).Some?
  }

  /** `parseEnvValue`: the raw text and parsed value at `key`, or `None` when
      the key is missing or its text does not parse. */
  function ParseEnvValue<T>(env: Environment, parser: string -> Option<T>, key: string): Option<(string, T)>
  {
    if key !in env then None
    else match parser(env[key])
      case None => None
      case Some(result) => Some((env[key], result))
  }

  /** The outcome of `envValue` over the candidate list `keys`. */
  function Resolve<T>(keys: seq<string>, env: Environment, parser: string -> Option<T>, defaultValue: Option<T>): Option<T>
  {
    if keys == [] then defaultValue
    else match ParseEnvValue(env, parser, keys[0])
      case Some((_, result)) => Some(result)
      case None => Resolve(keys[1..], env, parser, defaultValue)
  }

  /** An independent statement of where the search stops: the least index
      of a hit, or `|keys|` when there is none. */
  function FirstHit<T>(keys: seq<string>, env: Environment, parser: string -> Option<T>): (i: nat)
    ensures i <= |keys|
    ensures forall j :: 0 <= j < i ==> !Parses(env, parser, keys[j])
    ensures i < |keys| ==> Parses(env, parser, keys[i])
  {
    if keys == [] then 0
    else if Parses(env, parser, keys[0]) then 0
    else 1 + FirstHit(keys[1..], env, parser)
  }

  /** The search result is the parse of the first hit, and the default when
      there is no hit at all. */
  lemma {:induction false} ResolveIsFirstHit<T>(keys: seq<string>, env: Environment, parser: string -> Option<T>, defaultValue: Option<T>)
    ensures var i := FirstHit(keys, env, parser);
      Resolve(keys, env, parser, defaultValue) == if i < |keys| then parser(env[keys[i]]) else defaultValue
  {
    if keys != [] && !Parses(env, parser, keys[0]) {
      ResolveIsFirstHit(keys[1..], env, parser, defaultValue);
    }
  }

  /** A candidate that is a hit, with no hit before it, decides the result:
      missing and unparseable earlier candidates are skipped. */
  lemma ResolveFirstHit<T>(keys: seq<string>, env: Environment, parser: string -> Option<T>, defaultValue: Option<T>, i: nat)
    requires i < |keys| && Parses(env, parser, keys[i])
    requires forall j :: 0 <= j < i ==> !Parses(env, parser, keys[j])
    ensures Resolve(keys, env, parser, defaultValue) == parser(env[keys[i]])
  {
    assert FirstHit(keys, env, parser) == i;
    ResolveIsFirstHit(keys, env, parser, defaultValue);
  }

  /** With no hit among the candidates the default is returned, whatever it is. */
  lemma ResolveNoHit<T>(keys: seq<string>, env: Environment, parser: string -> Option<T>, defaultValue: Option<T>)
    requires forall j :: 0 <= j < |keys| ==> !Parses(env, parser, keys[j])
    ensures Resolve(keys, env, parser, defaultValue) == defaultValue
  {
    assert FirstHit(keys, env, parser) == |keys|;
    ResolveIsFirstHit(keys, env, parser, defaultValue);
  }

  /** Every result is either the default or the parse of a present value. */
  lemma ResolveOrigin<T>(keys: seq<string>, env: Environment, parser: string -> Option<T>, defaultValue: Option<T>)
    ensures var r := Resolve(keys, env, parser, defaultValue);
      r == defaultValue || exists i :: 0 <= i < |keys| && keys[i] in env && parser(env[keys[i]]) == r
  {
    ResolveIsFirstHit(keys, env, parser, defaultValue);
  }

  /** With a non-nil default the result is never nil, so the force-unwraps
      of the convenience functions cannot fail. */
  lemma {:induction false} ResolveWithDefaultIsSome<T>(keys: seq<string>, env: Environment, parser: string -> Option<T>, defaultValue: Option<T>)
    requires defaultValue.Some?
    ensures Resolve(keys, env, parser, defaultValue).Some?
  {
    if keys != [] && ParseEnvValue(env, parser, keys[0]).None? {
      ResolveWithDefaultIsSome(keys[1..], env, parser, defaultValue);
    }
  }

  /** Searching `front + back` is searching `front` with, as its default, the
      result of searching `back`: later candidates only matter when all
      earlier ones miss. */
  lemma {:induction false} ResolveAppend<T>(front: seq<string>, back: seq<string>, env: Environment, parser: string -> Option<T>, defaultValue: Option<T>)
    ensures Resolve(front + back, env, parser, defaultValue)
         == Resolve(front, env, parser, Resolve(back, env, parser, defaultValue))
  {
    if front == [] {
      assert front + back == back;
    } else {
      assert (front + back)[1..] == front[1..] + back;
      ResolveAppend(front[1..], back, env, parser, defaultValue);
    }
  }

  /** Trying a key that was already tried changes nothing, so a duplicate
      registration only makes the search longer. */
  lemma ResolveRepeatedKey<T>(keys: seq<string>, key: string, env: Environment, parser: string -> Option<T>, defaultValue: Option<T>)
    requires key in keys
    ensures Resolve(keys + [key], env, parser, defaultValue) == Resolve(keys, env, parser, defaultValue)
  {
    ResolveAppend(keys, [key], env, parser, defaultValue);
    if Parses(env, parser, key) {
      var i :| 0 <= i < |keys| && keys[i] == key;
      var k := FirstHit(keys, env, parser);
      assert k <= i;
      ResolveIsFirstHit(keys, env, parser, defaultValue);
      ResolveIsFirstHit(keys, env, parser, Resolve([key], env, parser, defaultValue));
    } else {
      assert Resolve([key], env, parser, defaultValue) == defaultValue;
    }
  }

  // ---------------------------------------------------------------- in terms of the registry

  /** Registering a domain never changes which of the earlier domains wins:
      the new domain is consulted only after all of them miss. */
  lemma RegisterKeepsPrecedence<T>(domains: seq<string>, domain: string, rawKey: string, env: Environment, parser: string -> Option<T>, defaultValue: Option<T>)
    ensures Resolve(CandidateKeys(domains + [domain], rawKey, true), env, parser, defaultValue)
         == Resolve(CandidateKeys(domains, rawKey, true), env, parser,
                    Resolve([QualifiedKey(domain, rawKey)], env, parser, defaultValue))
  {
    DomainKeysAppend(domains, domain, rawKey);
    ResolveAppend(DomainKeys(domains, rawKey), [QualifiedKey(domain, rawKey)], env, parser, defaultValue);
  }

  /** Registering a domain that is already registered never changes the
      result of a domain search: its key is tried earlier anyway. */
  lemma DuplicateRegistrationKeepsResult<T>(domains: seq<string>, domain: string, rawKey: string, env: Environment, parser: string -> Option<T>, defaultValue: Option<T>)
    requires domain in domains
    ensures Resolve(CandidateKeys(domains + [domain], rawKey, true), env, parser, defaultValue)
         == Resolve(CandidateKeys(domains, rawKey, true), env, parser, defaultValue)
  {
    DomainKeysAppend(domains, domain, rawKey);
    var i :| 0 <= i < |domains| && domains[i] == domain;
    assert DomainKeys(domains, rawKey)[i] == QualifiedKey(domain, rawKey);
    ResolveRepeatedKey(DomainKeys(domains, rawKey), QualifiedKey(domain, rawKey), env, parser, defaultValue);
  }

  /** With domain search off only the raw key is consulted. */
  lemma RawKeyOnly<T>(domains: seq<string>, rawKey: string, env: Environment, parser: string -> Option<T>, defaultValue: Option<T>)
    ensures Resolve(CandidateKeys(domains, rawKey, false), env, parser, defaultValue)
         == if Parses(env, parser, rawKey) then parser(env[rawKey]) else defaultValue
  {
  }

  /** With domain search on and no domain registered, the default is returned,
      even when the raw key itself has a value. */
  lemma NoDomainsGivesDefault<T>(rawKey: string, env: Environment, parser: string -> Option<T>, defaultValue: Option<T>)
    ensures Resolve(CandidateKeys([], rawKey, true), env, parser, defaultValue) == defaultValue
  {
  }

  /** With domain search on the raw key is never consulted: the result depends
      only on the qualified keys' values. */
  lemma {:induction false} DomainSearchIgnoresRawKey<T>(domains: seq<string>, rawKey: string, env: Environment, value: string, parser: string -> Option<T>, defaultValue: Option<T>)
    ensures Resolve(CandidateKeys(domains, rawKey, true), env[rawKey := value], parser, defaultValue)
         == Resolve(CandidateKeys(domains, rawKey, true), env, parser, defaultValue)
  {
    if domains != [] {
      assert |QualifiedKey(domains[0], rawKey)| > |rawKey|;
      DomainSearchIgnoresRawKey(domains[1..], rawKey, env, value, parser, defaultValue);
    }
  }

  // ---------------------------------------------------------------- by parser

  /** For strings every present value is a hit, so the result is the first
      present value, or the default when no candidate is present. */
  lemma StringFirstPresent(keys: seq<string>, env: Environment, defaultValue: Option<string>, i: nat)
    requires i < |keys| && keys[i] in env
    requires forall j :: 0 <= j < i ==> keys[j] !in env
    ensures Resolve(keys, env, ParseString, defaultValue) == Some(env[keys[i]])
  {
    ResolveFirstHit(keys, env, ParseString, defaultValue, i);
  }

  /** For strings the default is used exactly when no candidate is present. */
  lemma StringNonePresent(keys: seq<string>, env: Environment, defaultValue: Option<string>)
    requires forall j :: 0 <= j < |keys| ==> keys[j] !in env
    ensures Resolve(keys, env, ParseString, defaultValue) == defaultValue
  {
    ResolveNoHit(keys, env, ParseString, defaultValue);
  }

  /** A Bool other than the default can only come from a candidate whose text
      is exactly "1" (for true) or "0" (for false). */
  lemma BoolFromEncoding(keys: seq<string>, env: Environment, defaultValue: Option<bool>, b: bool)
    requires Resolve(keys, env, ParseBool, defaultValue) == Some(b) && defaultValue != Some(b)
    ensures exists i :: 0 <= i < |keys| && keys[i] in env && env[keys[i]] == ShowBool(b)
  {
    ResolveOrigin(keys, env, ParseBool, defaultValue);
    var i :| 0 <= i < |keys| && keys[i] in env && ParseBool(env[keys[i]]) == Some(b);
    ParseBoolExactly(env[keys[i]], b);
  }
}
