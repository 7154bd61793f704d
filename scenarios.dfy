/** The behaviours the repository's test suite pins down, each on a fresh
    manager (standing in for the shared instance after a reset) and a fixed
    map standing in for the mock value source. */
module EnvManagerScenarios {
  import opened Optionals
  import opened Text
  import opened Parsers
  import opened Resolution
  import opened Env

  /** The test domains' upper-case forms: the registration casing does not matter. */
  lemma UpperTestDomain()
    ensures Upper("TestDomain") == "TESTDOMAIN"
    ensures Upper("testdomain") == "TESTDOMAIN"
  {
  }

  /** `QualifiedKey(d, rawKey)` spelled out, given the upper-case form of `d`. */
  lemma SpellKey(d: string, upper: string, rawKey: string, key: string)
    requires Upper(d) == upper && upper + "_" + rawKey == key
    ensures QualifiedKey(d, rawKey) == key
  {
  }

  lemma TestDomainKey()
    ensures QualifiedKey("TestDomain", "MY_VAR") == "TESTDOMAIN_MY_VAR"
  {
    UpperTestDomain();
    SpellKey("TestDomain", "TESTDOMAIN", "MY_VAR", "TESTDOMAIN_MY_VAR");
  }

  lemma LowerTestDomainKey()
    ensures QualifiedKey("testdomain", "MY_VAR") == "TESTDOMAIN_MY_VAR"
  {
    UpperTestDomain();
    assert QualifiedKey("testdomain", "MY_VAR") == QualifiedKey("TestDomain", "MY_VAR");
    TestDomainKey();
  }

  /** The candidate keys of two registered domains, in registration order. */
  lemma KeysOfTwo(d: string, e: string, rawKey: string)
    ensures CandidateKeys([d, e], rawKey, true) == [QualifiedKey(d, rawKey), QualifiedKey(e, rawKey)]
  {
  }

  lemma FirstSecondKeys(rawKey: string)
    ensures QualifiedKey("First", rawKey) == "FIRST_" + rawKey
    ensures QualifiedKey("Second", rawKey) == "SECOND_" + rawKey
  {
    assert Upper("First") == "FIRST";
    assert Upper("Second") == "SECOND";
    SpellKey("First", "FIRST", rawKey, "FIRST_" + rawKey);
    SpellKey("Second", "SECOND", rawKey, "SECOND_" + rawKey);
  }

  lemma FirstSecondCandidates()
    ensures CandidateKeys(["First", "Second"], "MY_VAR", true) == ["FIRST_MY_VAR", "SECOND_MY_VAR"]
    ensures CandidateKeys(["First", "Second"], "FLAG", true) == ["FIRST_FLAG", "SECOND_FLAG"]
  {
    KeysOfTwo("First", "Second", "MY_VAR");
    KeysOfTwo("First", "Second", "FLAG");
    FirstSecondKeys("MY_VAR");
    FirstSecondKeys("FLAG");
    assert "FIRST_" + "MY_VAR" == "FIRST_MY_VAR" && "SECOND_" + "MY_VAR" == "SECOND_MY_VAR";
    assert "FIRST_" + "FLAG" == "FIRST_FLAG" && "SECOND_" + "FLAG" == "SECOND_FLAG";
  }

  lemma BaseTempKeys()
    ensures QualifiedKey("BaseDomain", "MY_VAR") == "BASEDOMAIN_MY_VAR"
    ensures QualifiedKey("TempDomain", "MY_VAR") == "TEMPDOMAIN_MY_VAR"
  {
    assert Upper("BaseDomain") == "BASEDOMAIN";
    assert Upper("TempDomain") == "TEMPDOMAIN";
    SpellKey("BaseDomain", "BASEDOMAIN", "MY_VAR", "BASEDOMAIN_MY_VAR");
    SpellKey("TempDomain", "TEMPDOMAIN", "MY_VAR", "TEMPDOMAIN_MY_VAR");
  }

  lemma BaseTempCandidates()
    ensures CandidateKeys(["TempDomain"], "MY_VAR", true) == ["TEMPDOMAIN_MY_VAR"]
    ensures CandidateKeys(["BaseDomain"], "MY_VAR", true) == ["BASEDOMAIN_MY_VAR"]
    ensures CandidateKeys(["BaseDomain", "TempDomain"], "MY_VAR", true) == ["BASEDOMAIN_MY_VAR", "TEMPDOMAIN_MY_VAR"]
  {
    BaseTempKeys();
    KeysOfTwo("BaseDomain", "TempDomain", "MY_VAR");
  }

  method BooleanParsingTrue() returns (result: Option<bool>)
    ensures result == Some(true)
  {
    var manager := new EnvManager(map[]);
    manager.SetEnvironmentProvider(map["TEST_BOOL" := "1"]);
    result := manager.EnvBoolValue("TEST_BOOL", searchInDomain := false);
  }

  method BooleanParsingFalse() returns (result: Option<bool>)
    ensures result == Some(false)
  {
    var manager := new EnvManager(map[]);
    manager.SetEnvironmentProvider(map["TEST_BOOL" := "0"]);
    result := manager.EnvBoolValue("TEST_BOOL", searchInDomain := false);
  }

  /** An unparseable Bool falls back to the default. */
  method BooleanParsingInvalid() returns (result: Option<bool>)
    ensures result == Some(true)
  {
    var manager := new EnvManager(map[]);
    manager.SetEnvironmentProvider(map["TEST_BOOL" := "invalid"]);
    result := manager.EnvBoolValue("TEST_BOOL", Some(true), searchInDomain := false);
  }

  method BooleanDefaultValue() returns (result: Option<bool>)
    ensures result == Some(true)
  {
    var manager := new EnvManager(map[]);
    result := manager.EnvBoolValue("NONEXISTENT", Some(true), searchInDomain := false);
  }

  method IntegerParsing() returns (result: Option<Int64>)
    ensures result == Some(2024)
  {
    var manager := new EnvManager(map[]);
    manager.SetEnvironmentProvider(map["TEST_INT" := "2024"]);
    assert ParseInt("2024") == Some(2024) by {
      ParseIntShowInt(2024);
      assert ShowInt(2024) == "2024";
    }
    result := manager.EnvIntValue("TEST_INT", searchInDomain := false);
  }

  /** A non-numeric Int falls back to the default. */
  method IntegerParsingInvalid() returns (result: Option<Int64>)
    ensures result == Some(42)
  {
    var manager := new EnvManager(map[]);
    manager.SetEnvironmentProvider(map["TEST_INT" := "not-a-number"]);
    assert !IsDigit("not-a-number"[0]);
    result := manager.EnvIntValue("TEST_INT", Some(42), searchInDomain := false);
  }

  method IntegerDefaultValue() returns (result: Option<Int64>)
    ensures result == Some(100)
  {
    var manager := new EnvManager(map[]);
    result := manager.EnvIntValue("NONEXISTENT", Some(100), searchInDomain := false);
  }

  method StringParsing() returns (result: Option<string>)
    ensures result == Some("/usr/local/bin")
  {
    var manager := new EnvManager(map[]);
    manager.SetEnvironmentProvider(map["TEST_PATH" := "/usr/local/bin"]);
    result := manager.EnvStringValue("TEST_PATH", searchInDomain := false);
  }

  method StringDefaultValue() returns (result: Option<string>)
    ensures result == Some("/default/path")
  {
    var manager := new EnvManager(map[]);
    result := manager.EnvStringValue("NONEXISTENT", Some("/default/path"), searchInDomain := false);
  }

  /** No default and nothing present: the result is nil. */
  method StringOptional() returns (result: Option<string>)
    ensures result == None
  {
    var manager := new EnvManager(map[]);
    result := manager.EnvStringValue("NONEXISTENT", searchInDomain := false);
  }

  method DomainSearch() returns (result: Option<string>)
    ensures result == Some("domain-value")
  {
    var manager := new EnvManager(map[]);
    manager.SetEnvironmentProvider(map["TESTDOMAIN_MY_VAR" := "domain-value"]);
    manager.Register("TestDomain");
    TestDomainKey();
    assert CandidateKeys(manager.domains, "MY_VAR", true) == ["TESTDOMAIN_MY_VAR"];
    result := manager.EnvStringValue("MY_VAR", searchInDomain := true);
  }

  /** The first registered domain wins. */
  method DomainSearchOrder() returns (result: Option<string>)
    ensures result == Some("first-value")
  {
    var manager := new EnvManager(map[]);
    manager.SetEnvironmentProvider(map["FIRST_MY_VAR" := "first-value", "SECOND_MY_VAR" := "second-value"]);
    manager.Register("First");
    manager.Register("Second");
    assert manager.domains == ["First", "Second"];
    FirstSecondCandidates();
    StringFirstPresent(["FIRST_MY_VAR", "SECOND_MY_VAR"], manager.provider, None, 0);
    result := manager.EnvStringValue("MY_VAR", searchInDomain := true);
  }

  /** An unparseable value in the first domain does not stop the search: the
      second domain's value is used, not the default. */
  method ParseFailureThenSuccess() returns (result: Option<bool>)
    ensures result == Some(true)
  {
    var manager := new EnvManager(map[]);
    manager.SetEnvironmentProvider(map["FIRST_FLAG" := "yes", "SECOND_FLAG" := "1"]);
    manager.Register("First");
    manager.Register("Second");
    assert manager.domains == ["First", "Second"];
    FirstSecondCandidates();
    assert !Parses(manager.provider, ParseBool, "FIRST_FLAG");
    ResolveFirstHit(["FIRST_FLAG", "SECOND_FLAG"], manager.provider, ParseBool, Some(false), 1);
    result := manager.EnvBoolValue("FLAG", Some(false), searchInDomain := true);
  }

  /** With domain search on, a value stored under the raw key alone is not
      found: the key list has no raw-key fallback. */
  method DomainSearchNoRawFallback() returns (result: Option<string>)
    ensures result == None
  {
    var manager := new EnvManager(map[]);
    manager.SetEnvironmentProvider(map["MY_VAR" := "raw-value"]);
    manager.Register("TestDomain");
    TestDomainKey();
    assert CandidateKeys(manager.domains, "MY_VAR", true) == ["TESTDOMAIN_MY_VAR"];
    result := manager.EnvStringValue("MY_VAR", searchInDomain := true);
  }

  /** A domain registered in lower case is searched under its upper-case form. */
  method DomainCaseSensitivity() returns (result: Option<string>)
    ensures result == Some("uppercase-value")
  {
    var manager := new EnvManager(map[]);
    manager.SetEnvironmentProvider(map["TESTDOMAIN_MY_VAR" := "uppercase-value"]);
    manager.Register("testdomain");
    LowerTestDomainKey();
    assert CandidateKeys(manager.domains, "MY_VAR", true) == ["TESTDOMAIN_MY_VAR"];
    result := manager.EnvStringValue("MY_VAR", searchInDomain := true);
  }

  /** With domain search off, registered domains are ignored. */
  method DisableDomainSearch() returns (result: Option<string>)
    ensures result == Some("raw-value")
  {
    var manager := new EnvManager(map[]);
    manager.SetEnvironmentProvider(map["TESTDOMAIN_MY_VAR" := "domain-value", "MY_VAR" := "raw-value"]);
    manager.Register("TestDomain");
    result := manager.EnvStringValue("MY_VAR", searchInDomain := false);
  }

  /** The lookup `envStringValue(rawKey: "MY_VAR", searchInDomain: true)` as a
      body for `WithDomain` that only reads. */
  function LookUpMyVar(s: Snapshot): (Snapshot, Outcome<Option<string>, string>)
  {
    (s, Returned(Resolve(CandidateKeys(s.domains, "MY_VAR", true), s.provider, ParseString, None)))
  }

  /** Inside the scope the temporary domain is searched; after it, it is gone. */
  method WithDomainScope() returns (inside: Outcome<Option<string>, string>, after: Option<string>, domainsAfter: seq<string>)
    ensures inside == Returned(Some("temp-value"))
    ensures after == Some("default")
    ensures domainsAfter == []
  {
    var manager := new EnvManager(map[]);
    manager.SetEnvironmentProvider(map["TEMPDOMAIN_MY_VAR" := "temp-value"]);
    assert manager.domains + ["TempDomain"] == ["TempDomain"];
    BaseTempCandidates();
    inside := manager.WithDomain("TempDomain", LookUpMyVar);
    after := manager.EnvStringValue("MY_VAR", Some("default"), searchInDomain := true);
    domainsAfter := manager.domains;
  }

  /** A domain registered before the scope keeps precedence inside it and is
      still registered after it. */
  method WithDomainPreservesExisting() returns (inside: Outcome<Option<string>, string>, after: Option<string>, domainsAfter: seq<string>)
    ensures inside == Returned(Some("base-value"))
    ensures after == Some("base-value")
    ensures domainsAfter == ["BaseDomain"]
  {
    var manager := new EnvManager(map[]);
    manager.SetEnvironmentProvider(map["BASEDOMAIN_MY_VAR" := "base-value", "TEMPDOMAIN_MY_VAR" := "temp-value"]);
    manager.Register("BaseDomain");
    assert manager.domains + ["TempDomain"] == ["BaseDomain", "TempDomain"];
    BaseTempCandidates();
    inside := manager.WithDomain("TempDomain", LookUpMyVar);
    after := manager.EnvStringValue("MY_VAR", searchInDomain := true);
    domainsAfter := manager.domains;
  }

  /** A body that throws still has its domain removed, and its error is passed on. */
  method WithDomainThrows() returns (outcome: Outcome<bool, string>, domainsAfter: seq<string>)
    ensures outcome == Threw("failure")
    ensures domainsAfter == ["BaseDomain"]
  {
    var manager := new EnvManager(map[]);
    manager.Register("BaseDomain");
    outcome := manager.WithDomain("TempDomain", (s: Snapshot) => (s, Threw("failure")));
    domainsAfter := manager.domains;
  }

  /** Scoping a domain that was already registered removes the earlier
      registration as well. */
  method WithDomainRemovesEarlierRegistration() returns (domainsAfter: seq<string>)
    ensures domainsAfter == ["BaseDomain"]
  {
    var manager := new EnvManager(map[]);
    manager.Register("BaseDomain");
    manager.Register("TempDomain");
    var outcome: Outcome<int, string> := manager.WithDomain("TempDomain", (s: Snapshot) => (s, Returned(0)));
    domainsAfter := manager.domains;
  }

  method ConvenienceBool() returns (result: bool)
    ensures result == true
  {
    var manager := new EnvManager(map[]);
    manager.SetEnvironmentProvider(map["TEST_BOOL" := "1"]);
    result := EnvBoolValue(manager, "TEST_BOOL", false, searchInDomain := false);
  }

  method ConvenienceInt() returns (result: Int64)
    ensures result == 42
  {
    var manager := new EnvManager(map[]);
    manager.SetEnvironmentProvider(map["TEST_INT" := "42"]);
    assert ParseInt("42") == Some(42) by {
      ParseIntShowInt(42);
      assert ShowInt(42) == "42";
    }
    result := EnvIntValue(manager, "TEST_INT", 0, searchInDomain := false);
  }

  method ConvenienceStringWithDefault() returns (result: string)
    ensures result == "test-value"
  {
    var manager := new EnvManager(map[]);
    manager.SetEnvironmentProvider(map["TEST_STRING" := "test-value"]);
    result := EnvStringValue(manager, "TEST_STRING", "default", searchInDomain := false);
  }

  method ConvenienceStringWithoutDefault() returns (result: Option<string>)
    ensures result == None
  {
    var manager := new EnvManager(map[]);
    result := EnvOptionalStringValue(manager, "NONEXISTENT", searchInDomain := false);
  }
}
