/**
 * The plugin's entry point (index.js): the exported rule table and the
 * "all" configuration that turns every rule on as an error.
 */
module Plugin {

  /** The namespace ESLint expects in front of a plugin's rule names. */
  const RulePrefix := "react-native-animation-linter/"

  /** ESLint's "error" severity. */
  const ErrorSeverity := 2

  /**
   * A key that `for (const key in rules)` visits, in visiting order, and
   * whether `rules.hasOwnProperty(key)` holds of it (false for an
   * enumerable key inherited through the prototype chain).
   */
  datatype PropertyKey = PropertyKey(name: string, isOwn: bool)

  /** The own keys of a rules object. */
  function OwnKeys(rules: seq<PropertyKey>): set<string>
  {
    set k | k in rules && k.isOwn :: k.name
  }

  function Namespaced(name: string): string
  {
    RulePrefix + name
  }

  /** A configuration key is a rule name behind the plugin's prefix. */
  predicate IsNamespaced(key: string)
  {
    |RulePrefix| <= |key| && key[..|RulePrefix|] == RulePrefix
  }

  /** The rule name behind a namespaced key. */
  function RuleName(key: string): string
    requires IsNamespaced(key)
  {
    key[|RulePrefix|..]
  }

  /** Prefixing is injective and `RuleName` undoes it. */
  lemma NamespacedRoundTrip(name: string)
    ensures IsNamespaced(Namespaced(name)) && RuleName(Namespaced(name)) == name
  {
    assert Namespaced(name)[..|RulePrefix|] == RulePrefix;
    assert Namespaced(name)[|RulePrefix|..] == name;
  }

  /** The configuration `configureAsError` is meant to build: every own key, prefixed, at error severity. */
  function ErrorConfig(rules: seq<PropertyKey>): map<string, int>
  {
    map k | k in OwnKeys(rules) :: Namespaced(k) := ErrorSeverity
  }

  /**
   * Every output key is the prefix followed by an own key of the input,
   * every own key appears prefixed, and every value is the error severity.
   */
  lemma ErrorConfigEntries(rules: seq<PropertyKey>)
    ensures forall key :: key in ErrorConfig(rules) ==>
              IsNamespaced(key) && RuleName(key) in OwnKeys(rules) && ErrorConfig(rules)[key] == ErrorSeverity
    ensures forall k :: k in OwnKeys(rules) ==> Namespaced(k) in ErrorConfig(rules)
    ensures forall k :: k in rules && !k.isOwn && k.name !in OwnKeys(rules) ==> Namespaced(k.name) !in ErrorConfig(rules)
  {
    forall key | key in ErrorConfig(rules)
      ensures IsNamespaced(key) && RuleName(key) in OwnKeys(rules)
    {
      var k :| k in OwnKeys(rules) && key == Namespaced(k);
      NamespacedRoundTrip(k);
    }
    forall k | k in rules && !k.isOwn && k.name !in OwnKeys(rules)
      ensures Namespaced(k.name) !in ErrorConfig(rules)
    {
      NamespacedRoundTrip(k.name);
    }
  }

  /** Distinct rule names give distinct keys, so the configuration has one entry per own key. */
  lemma ErrorConfigSize(rules: seq<PropertyKey>)
    ensures |ErrorConfig(rules)| == |OwnKeys(rules)|
  {
    var keys := ErrorConfig(rules).Keys;
    forall key | key in keys
      ensures key in set k | k in OwnKeys(rules) :: Namespaced(k)
    {
      var k :| k in OwnKeys(rules) && key == Namespaced(k);
    }
    assert keys == set k | k in OwnKeys(rules) :: Namespaced(k);
    NamespacedSetSize(OwnKeys(rules));
  }

  lemma {:induction false} NamespacedSetSize(names: set<string>)
    ensures |set k | k in names :: Namespaced(k)| == |names|
    decreases |names|
  {
    if names != {} {
      var x :| x in names;
      var rest := names - {x};
      NamespacedSetSize(rest);
      var image := set k | k in rest :: Namespaced(k);
      assert (set k | k in names :: Namespaced(k)) == image + {Namespaced(x)};
      if Namespaced(x) in image {
        var y :| y in rest && Namespaced(y) == Namespaced(x);
        NamespacedRoundTrip(x);
        NamespacedRoundTrip(y);
      }
    }
  }

  /** An object without own keys configures nothing. */
  lemma ErrorConfigEmpty(rules: seq<PropertyKey>)
    requires forall k :: k in rules ==> !k.isOwn
    ensures ErrorConfig(rules) == map[]
  {
    assert OwnKeys(rules) == {};
  }

  /**
   * `configureAsError`: walks the keys `for…in` visits, skips the inherited
   * ones and records each own key, prefixed, at error severity. The input is
   * only read.
   */
  method ConfigureAsError(rules: seq<PropertyKey>) returns (result: map<string, int>)
    ensures result == ErrorConfig(rules)
  {
    result := map[];
    assert OwnKeys(rules[..0]) == {};
    for i := 0 to |rules|
      invariant result == ErrorConfig(rules[..i])
    {
      assert rules[..i + 1] == rules[..i] + [rules[i]];
      if !rules[i].isOwn {
        assert OwnKeys(rules[..i + 1]) == OwnKeys(rules[..i]);
        continue;
      }
      assert OwnKeys(rules[..i + 1]) == OwnKeys(rules[..i]) + {rules[i].name};
      result := result[Namespaced(rules[i].name) := ErrorSeverity];
    }
    assert rules[..|rules|] == rules;
  }

  /** The `parserOptions.ecmaFeatures.jsx` flag and the `rules` of a configuration. */
  datatype Config = Config(jsx: bool, rules: map<string, int>)

  /** `module.exports`: the rule table, given by its keys, and `configs.all`. */
  datatype Exports = Exports(rules: seq<PropertyKey>, all: Config)

  /** `allRules`: no rule is registered yet. */
  const AllRules: seq<PropertyKey> := []

  /** The module's exports: `all` enables JSX and configures every rule of `allRules`, which is none. */
  method ModuleExports() returns (exports: Exports)
    ensures exports.rules == AllRules
    ensures exports.all.jsx
    ensures exports.all.rules == ErrorConfig(exports.rules) == map[]
  {
    var configured := ConfigureAsError(AllRules);
    ErrorConfigEmpty(AllRules);
    exports := Exports(AllRules, Config(true, configured));
  }
}
