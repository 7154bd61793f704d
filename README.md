# EnvManager, modelled in Dafny

This project models `EnvManager` of SPMManifestTool. `EnvManager` resolves
typed configuration values (Bool, Int, String) from a key/value source. It
keeps an ordered registry of "domains". When domain search is on, each domain
gives one candidate key `UPPER(domain) + "_" + rawKey`, tried in registration
order. When domain search is off, the only candidate is `rawKey`. The first
candidate whose value is present and parses wins. If no candidate wins, the
caller's default is returned, which may be nil.

Files and modules:

- `optionals.dfy` (`Optionals`): `Option`, standing for Swift's `T?`.
- `text.dfy` (`Text`): ASCII upper-casing of domain names.
- `parsers.dfy` (`Parsers`): the Bool, Int and String parsers. `Int64` stands for Swift's `Int`.
- `resolution.dfy` (`Resolution`): candidate keys and the precedence search, as functions, with the lemmas about them.
- `registry.dfy` (`Registry`): `Without`, the "remove every occurrence" step of `withDomain`, with its lemmas.
- `env_manager.dfy` (`Env`): the `EnvManager` class and the four convenience functions.
- `scenarios.dfy` (`EnvManagerScenarios`): the test suite's scenarios, each proved on a fresh manager.

Modelling choices:

- The value source (`EnvironmentProvider`) is a `map<string, string>`. A key outside the map reads as nil, as in the test double, except that the model compares keys code point by code point (see `Registry.Without` under "## Left out").
- `EnvManager` is a class with two fields that its methods reassign: `domains: seq<string>` and `provider`.
- `envValue` is a method with the source's loop and early return. Its `ensures` ties the result to the function `Resolution.Resolve`. The lemmas about `Resolve` state the precedence rule.
- The body given to `withDomain` is modelled as a function from a `Snapshot` (the registry and the provider) to a new `Snapshot` and an `Outcome`. The outcome is either a returned value or a thrown error. The removal of the domain runs on the state the body left behind, on both exits, as the `defer` does. The body's outcome is passed on unchanged, as `rethrows` does.
- There is no shared singleton. Each scenario creates its own instance. The convenience functions take that instance as a parameter.
- The test suite and `EnvManager.swift` disagree in two places. The model follows `EnvManager.swift`:
  - The tests call `reset()` and set an `includeFallbackToRawKey` flag (Tests/SPMManifestToolTests/EnvManagerTests.swift:51, :246). `EnvManager.swift` defines neither.
  - The key list at Sources/SPMManifestTool/EnvManager.swift:88-90 never includes the raw key when domain search is on. `Resolution.DomainSearchIgnoresRawKey` proves this. `EnvManagerScenarios.DomainSearchNoRawFallback` shows that the lookup of EnvManagerTests.swift:236-252, without the line that sets `includeFallbackToRawKey` (a property EnvManager.swift does not have), gives nil, not `"raw-value"`.

## Model

| member | source | states |
|---|---|---|
| `Text.Upper` | Sources/SPMManifestTool/EnvManager.swift:89 | `uppercased()` keeps the length and leaves no ASCII lower-case letter |
| `Text.UpperCharCases` | Sources/SPMManifestTool/EnvManager.swift:89 | a lower-case letter maps to its upper-case counterpart; every other character is unchanged |
| `Text.UpperIgnoresCase` | Sources/SPMManifestTool/EnvManager.swift:89 | names that differ only in letter case give the same upper-case form, so the casing used at registration does not matter |
| `Parsers.ParseBoolExactly` | Sources/SPMManifestTool/EnvManager.swift:104-112 | a text parses to `b` if and only if it is `"1"` (true) or `"0"` (false) |
| `Parsers.ParseBoolFails` | Sources/SPMManifestTool/EnvManager.swift:104-112 | every text other than `"1"` and `"0"` fails to parse |
| `Parsers.ParseString` | Sources/SPMManifestTool/EnvManager.swift:118-120 | the String parser never fails and returns the text unchanged |
| `Parsers.ParseInt` | Sources/SPMManifestTool/EnvManager.swift:114-116 | `Int(String)` succeeds only on an optional sign followed by one or more ASCII digits |
| `Parsers.ParseIntShowInt` | Sources/SPMManifestTool/EnvManager.swift:114-116 | the Int parser reads the decimal text of any 64-bit Int back to that same value |
| `Parsers.ParseIntPlusSign` | Sources/SPMManifestTool/EnvManager.swift:115 | a leading `+` does not change the parse |
| `Resolution.QualifiedKey` | Sources/SPMManifestTool/EnvManager.swift:89 | a qualified key is the upper-cased domain, then `_`, then the raw key |
| `Resolution.DomainKeys` | Sources/SPMManifestTool/EnvManager.swift:89 | the mapped key list has one qualified key per domain, in the same positions |
| `Resolution.CandidateKeys` | Sources/SPMManifestTool/EnvManager.swift:88-90 | with search on, the candidates are the domains' qualified keys in registration order; with search off, the candidates are exactly `[rawKey]`, whatever domains are registered |
| `Resolution.DomainKeysAppend` | Sources/SPMManifestTool/EnvManager.swift:88-90 | registering one more domain adds one candidate key, at the end |
| `Resolution.FirstHit` | Sources/SPMManifestTool/EnvManager.swift:91-96 | the index where the search stops: no earlier candidate is both present and parseable, and the candidate at that index is |
| `Resolution.ResolveIsFirstHit` | Sources/SPMManifestTool/EnvManager.swift:79-101 | the result is the parse of the first candidate that is present and parses, or the default when there is no such candidate |
| `Resolution.ResolveFirstHit` | Sources/SPMManifestTool/EnvManager.swift:79-96 | missing and unparseable candidates are skipped; the first present-and-parseable candidate decides the result |
| `Resolution.ResolveNoHit` | Sources/SPMManifestTool/EnvManager.swift:97-101 | with no present-and-parseable candidate, the result is the supplied default, nil included |
| `Resolution.ResolveOrigin` | Sources/SPMManifestTool/EnvManager.swift:79-101 | every result is the default or the parse of a value present at some candidate |
| `Resolution.ResolveWithDefaultIsSome` | Sources/SPMManifestTool/EnvManager.swift:97-101 | with a non-nil default the result is never nil |
| `Resolution.ResolveAppend` | Sources/SPMManifestTool/EnvManager.swift:91-96 | searching `front + back` is searching `front` with the result of searching `back` as its default, so later candidates matter only when all earlier ones miss |
| `Resolution.ResolveRepeatedKey` | Sources/SPMManifestTool/EnvManager.swift:91-101 | appending a candidate key that is already in the list never changes the search result |
| `Resolution.DuplicateRegistrationKeepsResult` | Sources/SPMManifestTool/EnvManager.swift:63-65 | registering a domain that is already registered never changes the result of a domain search |
| `Resolution.RegisterKeepsPrecedence` | Sources/SPMManifestTool/EnvManager.swift:88-96 | a newly registered domain is consulted only after every earlier domain misses |
| `Resolution.RawKeyOnly` | Sources/SPMManifestTool/EnvManager.swift:88-90 | with search off, the result depends only on the raw key's value |
| `Resolution.NoDomainsGivesDefault` | Sources/SPMManifestTool/EnvManager.swift:88-101 | with search on and no domain registered, the result is the default |
| `Resolution.DomainSearchIgnoresRawKey` | Sources/SPMManifestTool/EnvManager.swift:88-90 | with search on, changing the raw key's value never changes the result |
| `Resolution.StringFirstPresent` | Sources/SPMManifestTool/EnvManager.swift:118-120 | a String lookup returns the first value present among the candidates |
| `Resolution.StringNonePresent` | Sources/SPMManifestTool/EnvManager.swift:118-120 | a String lookup returns the default when no candidate is present |
| `Resolution.BoolFromEncoding` | Sources/SPMManifestTool/EnvManager.swift:104-112 | a Bool result other than the default comes from a candidate whose text is exactly `"1"` or `"0"` |
| `Registry.Without` | Sources/SPMManifestTool/EnvManager.swift:69 | `removeAll { $0 == domain }` removes every copy of the domain and keeps every other entry |
| `Registry.WithoutAppend` | Sources/SPMManifestTool/EnvManager.swift:69 | the removal works element by element, so the remaining entries keep their order |
| `Registry.WithoutAbsent` | Sources/SPMManifestTool/EnvManager.swift:69 | removing a domain that is not registered leaves the list unchanged |
| `Registry.ScopedRegistrationRestores` | Sources/SPMManifestTool/EnvManager.swift:67-71 | append then remove-all gives the old list without the domain; when the domain was absent before, it gives exactly the old list |
| `Registry.ScopedRegistrationRemovesEarlier` | Sources/SPMManifestTool/EnvManager.swift:67-71 | a domain that was registered before the scope is removed too: the list shrinks by every earlier copy |
| `Env.EnvManager.constructor` | Sources/SPMManifestTool/EnvManager.swift:45-56 | a new manager has no domains and reads from the given provider |
| `Env.EnvManager.SetEnvironmentProvider` | Sources/SPMManifestTool/EnvManager.swift:59-61 | replaces the provider and leaves the domains unchanged |
| `Env.EnvManager.Register` | Sources/SPMManifestTool/EnvManager.swift:63-65 | appends the domain at the end; earlier entries and their order are kept and duplicates are allowed |
| `Env.EnvManager.WithDomain` | Sources/SPMManifestTool/EnvManager.swift:67-71 | the body runs with the domain appended; afterwards, on return or throw, the registry is the body's final registry with every copy of the domain removed, and the body's outcome is passed on; for a body that leaves the registry alone, the registry is the old one without the domain, or exactly the old one |
| `Env.EnvManager.EnvValue` | Sources/SPMManifestTool/EnvManager.swift:73-102 | the loop returns the precedence-search result over the current domains and provider |
| `Env.EnvManager.EnvBoolValue` | Sources/SPMManifestTool/EnvManager.swift:104-112 | the search result with the Bool parser |
| `Env.EnvManager.EnvIntValue` | Sources/SPMManifestTool/EnvManager.swift:114-116 | the search result with the Int parser |
| `Env.EnvManager.EnvStringValue` | Sources/SPMManifestTool/EnvManager.swift:118-120 | the search result with the String parser |
| `Env.EnvBoolValue` | Sources/SPMManifestTool/EnvManager.swift:125-128 | the force-unwrap never fails; the value is the Bool search result with the given default (`false` if omitted), search on by default |
| `Env.EnvIntValue` | Sources/SPMManifestTool/EnvManager.swift:130-133 | the force-unwrap never fails; the value is the Int search result with the given default (`0` if omitted) |
| `Env.EnvStringValue` | Sources/SPMManifestTool/EnvManager.swift:135-138 | the force-unwrap never fails; the value is the String search result with the given default |
| `Env.EnvOptionalStringValue` | Sources/SPMManifestTool/EnvManager.swift:140-143 | the String search result with no default, so nil when no candidate is present |
| `EnvManagerScenarios.UpperTestDomain` | Tests/SPMManifestToolTests/EnvManagerTests.swift:320-335 | `"TestDomain"` and `"testdomain"` both upper-case to `"TESTDOMAIN"` |
| `EnvManagerScenarios.BooleanParsingTrue` | Tests/SPMManifestToolTests/EnvManagerTests.swift:44-58 | `"1"` under the raw key gives true |
| `EnvManagerScenarios.BooleanParsingFalse` | Tests/SPMManifestToolTests/EnvManagerTests.swift:60-74 | `"0"` under the raw key gives false |
| `EnvManagerScenarios.BooleanParsingInvalid` | Tests/SPMManifestToolTests/EnvManagerTests.swift:76-90 | `"invalid"` falls back to the default true |
| `EnvManagerScenarios.BooleanDefaultValue` | Tests/SPMManifestToolTests/EnvManagerTests.swift:92-105 | a missing key gives the default |
| `EnvManagerScenarios.IntegerParsing` | Tests/SPMManifestToolTests/EnvManagerTests.swift:107-121 | `"2024"` gives 2024 |
| `EnvManagerScenarios.IntegerParsingInvalid` | Tests/SPMManifestToolTests/EnvManagerTests.swift:123-137 | `"not-a-number"` falls back to the default 42 |
| `EnvManagerScenarios.IntegerDefaultValue` | Tests/SPMManifestToolTests/EnvManagerTests.swift:139-152 | a missing key gives the default 100 |
| `EnvManagerScenarios.StringParsing` | Tests/SPMManifestToolTests/EnvManagerTests.swift:154-168 | a present string is returned as it is |
| `EnvManagerScenarios.StringDefaultValue` | Tests/SPMManifestToolTests/EnvManagerTests.swift:170-183 | a missing key gives the default string |
| `EnvManagerScenarios.StringOptional` | Tests/SPMManifestToolTests/EnvManagerTests.swift:185-198 | a missing key with no default gives nil |
| `EnvManagerScenarios.DomainSearch` | Tests/SPMManifestToolTests/EnvManagerTests.swift:200-215 | a registered domain's qualified key is found |
| `EnvManagerScenarios.DomainSearchOrder` | Tests/SPMManifestToolTests/EnvManagerTests.swift:217-234 | the first registered domain wins |
| `EnvManagerScenarios.ParseFailureThenSuccess` | Sources/SPMManifestTool/EnvManager.swift:91-96 | an unparseable value in the first domain is skipped, and the second domain's value is used rather than the default |
| `EnvManagerScenarios.DomainSearchNoRawFallback` | Sources/SPMManifestTool/EnvManager.swift:88-90 | with search on, a value stored only under the raw key is not found |
| `EnvManagerScenarios.DomainCaseSensitivity` | Tests/SPMManifestToolTests/EnvManagerTests.swift:320-335 | a domain registered in lower case is searched under its upper-case form |
| `EnvManagerScenarios.DisableDomainSearch` | Tests/SPMManifestToolTests/EnvManagerTests.swift:254-270 | with search off, the raw key is used and the domains are ignored |
| `EnvManagerScenarios.WithDomainScope` | Tests/SPMManifestToolTests/EnvManagerTests.swift:272-293 | the temporary domain is found inside the scope, and afterwards the registry is empty again and the default is returned |
| `EnvManagerScenarios.WithDomainPreservesExisting` | Tests/SPMManifestToolTests/EnvManagerTests.swift:295-318 | an earlier domain keeps precedence inside the scope and is still registered afterwards |
| `EnvManagerScenarios.WithDomainThrows` | Sources/SPMManifestTool/EnvManager.swift:67-71 | a body that throws has its error passed on and still has its domain removed |
| `EnvManagerScenarios.WithDomainRemovesEarlierRegistration` | Sources/SPMManifestTool/EnvManager.swift:69 | scoping a domain that was already registered also removes the earlier registration |
| `EnvManagerScenarios.ConvenienceBool` | Tests/SPMManifestToolTests/EnvManagerTests.swift:341-354 | the Bool convenience function returns true for `"1"` |
| `EnvManagerScenarios.ConvenienceInt` | Tests/SPMManifestToolTests/EnvManagerTests.swift:356-369 | the Int convenience function returns 42 for `"42"` |
| `EnvManagerScenarios.ConvenienceStringWithDefault` | Tests/SPMManifestToolTests/EnvManagerTests.swift:371-384 | a present value is returned instead of the default |
| `EnvManagerScenarios.ConvenienceStringWithoutDefault` | Tests/SPMManifestToolTests/EnvManagerTests.swift:386-398 | with no default, a missing key gives nil |

## Left out

- Logging: the `print` calls (Sources/SPMManifestTool/EnvManager.swift:93, :99) only log and do not affect results. `primaryKey` (:97) feeds only the log line, so it is not modelled either.
- Concrete providers: `PackageContextEnvironmentProvider` and `ProcessEnvironmentProvider` (:21-37) read the build context or the process environment. Both are OS reads. The model's constructor takes the initial provider as a parameter instead.
- Concurrency: `@MainActor` and the `shared` singleton (:41-43) are not modelled. Each use gets a fresh instance instead.
- The test double's `set`, `remove` and `clear` (Tests/SPMManifestToolTests/EnvManagerTests.swift:10-37) are not modelled. The scenarios pass fixed maps instead.
- `reset()` and `includeFallbackToRawKey` are used by the tests but are not defined in EnvManager.swift, so they are not modelled.
- Registry.Without: compares domain names code point by code point, and the provider map compares keys the same way. Swift's `String ==` and dictionary keys compare up to Unicode canonical equivalence, so `"e\u{301}"` and `"\u{E9}"` are one name in the source and two in the model.
- Text.Upper: models `uppercased()` for ASCII letters only. Unicode case mappings, including ones that change the length such as `ß` to `SS`, are not modelled.
- Parsers.ParseInt: assumes a 64-bit `Int`. Platform-dependent widths are not modelled.
- Env.EnvManager.WithDomain: the body is a pure function of the manager's state and cannot call the manager's methods directly. It describes its effects by returning a new `Snapshot`, so nested registrations are covered only in that form. Aliasing between the body and the manager object is not modelled.
