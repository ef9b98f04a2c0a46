/**
 * `KernelConfiguration`: the immutable settings a test kernel is built from.
 * Every `with*` operation returns a modified copy; since the model is a
 * datatype, the receiver can never be changed.
 */
module Configuration {
  import opened Wrappers
  import opened PhpArrays

  /** A bundle instance: its class name and an identity that tells instances of one class apart. */
  datatype Bundle = Bundle(className: string, instance: nat)

  const DEFAULT_ENVIRONMENT: string := "test"

  /** The tuple that `getHash` serialises and digests. */
  datatype HashInput = HashInput(
    environment: string,
    debug: bool,
    bundleClasses: seq<string>,
    bundleConfigurations: PhpArray)

  /** The class name of each bundle, in order (`array_map` of `get_class`). */
  function ClassNames(bundles: seq<Bundle>): seq<string> {
    seq(|bundles|, n requires 0 <= n < |bundles| => bundles[n].className)
  }

  /** A digest function that never maps two different tuples to one digest. */
  ghost predicate Injective(digest: HashInput -> string) {
    forall x, y :: digest(x) == digest(y) ==> x == y
  }

  /** An extension's configuration as `withBundleConfiguration` stores it: a string key and an array. */
  predicate IsExtensionEntry(e: Entry) {
    e.key.StrKey? && e.val.Arr?
  }

  datatype KernelConfiguration = KernelConfiguration(
    environment: string,
    debug: bool,
    bundles: seq<Bundle>,
    bundleConfigurations: PhpArray)
  {
    /** Each extension name appears once and holds an array. */
    predicate Valid() {
      && UniqueKeys(bundleConfigurations)
      && forall n :: 0 <= n < |bundleConfigurations| ==> IsExtensionEntry(bundleConfigurations[n])
    }

    function WithEnvironment(env: string): (c: KernelConfiguration)
      ensures c.environment == env
      ensures c.debug == debug && c.bundles == bundles && c.bundleConfigurations == bundleConfigurations
    {
      this.(environment := env)
    }

    function WithDebug(flag: bool): (c: KernelConfiguration)
      ensures c.debug == flag
      ensures c.environment == environment && c.bundles == bundles && c.bundleConfigurations == bundleConfigurations
    {
      this.(debug := flag)
    }

    function WithBundle(bundle: Bundle): (c: KernelConfiguration)
      ensures c.bundles == bundles + [bundle]
      ensures c.environment == environment && c.debug == debug && c.bundleConfigurations == bundleConfigurations
    {
      this.(bundles := bundles + [bundle])
    }

    /** `array_reduce` of `withBundle` over the list, from the left. */
    function WithBundles(list: seq<Bundle>): (c: KernelConfiguration)
      ensures c.bundles == bundles + list
      ensures c.environment == environment && c.debug == debug && c.bundleConfigurations == bundleConfigurations
      decreases |list|
    {
      if list == [] then this
      else
        assert bundles + [list[0]] + list[1..] == bundles + list;
        WithBundle(list[0]).WithBundles(list[1..])
    }

    /** `$bundleConfigurations[$name] ?? []`. */
    function ExistingConfiguration(extensionName: string): PhpArray {
      match Lookup(bundleConfigurations, StrKey(extensionName))
      case Some(Arr(es)) => es
      case _ => []
    }

    /**
     * Merges `configuration` into what is stored for `extensionName` with
     * `array_merge_recursive`: a new name is added after the existing ones,
     * an existing name keeps its place, and other names are left alone.
     */
    function WithBundleConfiguration(extensionName: string, configuration: PhpArray): (c: KernelConfiguration)
      ensures c.environment == environment && c.debug == debug && c.bundles == bundles
      ensures Keys(c.bundleConfigurations) ==
        if StrKey(extensionName) in Keys(bundleConfigurations) then Keys(bundleConfigurations)
        else Keys(bundleConfigurations) + [StrKey(extensionName)]
      ensures Lookup(c.bundleConfigurations, StrKey(extensionName)) ==
        Some(Arr(MergeRecursive(ExistingConfiguration(extensionName), configuration)))
      ensures forall k :: k != StrKey(extensionName) ==> Lookup(c.bundleConfigurations, k) == Lookup(bundleConfigurations, k)
    {
      var merged := MergeRecursive(ExistingConfiguration(extensionName), configuration);
      this.(bundleConfigurations := Put(bundleConfigurations, StrKey(extensionName), Arr(merged)))
    }

    /** The tuple `getHash` digests: bundles contribute only their class names. */
    function Serialized(): (h: HashInput)
      ensures h.environment == environment && h.debug == debug && h.bundleConfigurations == bundleConfigurations
      ensures |h.bundleClasses| == |bundles|
      ensures forall n :: 0 <= n < |bundles| ==> h.bundleClasses[n] == bundles[n].className
    {
      HashInput(environment, debug, ClassNames(bundles), bundleConfigurations)
    }

    /** `sha1(serialize(...))`, with the digest function as a parameter. */
    function GetHash(sha1: HashInput -> string): (h: string)
      ensures Injective(sha1) ==> forall c: KernelConfiguration :: sha1(c.Serialized()) == h ==> c.Serialized() == Serialized()
    {
      sha1(Serialized())
    }
  }

  /** A fresh configuration. */
  function Default(): (c: KernelConfiguration)
    ensures c.environment == DEFAULT_ENVIRONMENT && c.debug
    ensures c.bundles == [] && c.bundleConfigurations == []
    ensures c.Valid()
  {
    KernelConfiguration(DEFAULT_ENVIRONMENT, true, [], [])
  }

  // ---------------------------------------------------------------------
  // Bundles

  /** Adding two lists one after the other is adding their concatenation. */
  lemma {:induction false} WithBundlesConcat(c: KernelConfiguration, xs: seq<Bundle>, ys: seq<Bundle>)
    ensures c.WithBundles(xs).WithBundles(ys) == c.WithBundles(xs + ys)
  {
    var l := c.WithBundles(xs).WithBundles(ys);
    var r := c.WithBundles(xs + ys);
    assert c.bundles + xs + ys == c.bundles + (xs + ys);
    assert l.bundles == r.bundles;
    assert l.environment == r.environment && l.debug == r.debug;
    assert l.bundleConfigurations == r.bundleConfigurations;
  }

  /** Adding bundles one at a time gives the same list as adding them together. */
  lemma WithBundleIsWithBundles(c: KernelConfiguration, b: Bundle)
    ensures c.WithBundles([b]) == c.WithBundle(b)
  {
  }

  // ---------------------------------------------------------------------
  // Bundle configurations

  /** Every `with*` operation keeps the configuration table well-formed. */
  lemma WithBundleConfigurationValid(c: KernelConfiguration, extensionName: string, configuration: PhpArray)
    requires c.Valid()
    ensures c.WithBundleConfiguration(extensionName, configuration).Valid()
  {
    var merged := Arr(MergeRecursive(c.ExistingConfiguration(extensionName), configuration));
    PutUnique(c.bundleConfigurations, StrKey(extensionName), merged);
    PutKeepsAll(c.bundleConfigurations, StrKey(extensionName), merged, IsExtensionEntry);
  }

  /** A new extension name holding only string keys is stored exactly as given. */
  lemma NewExtensionStoredAsGiven(c: KernelConfiguration, extensionName: string, configuration: PhpArray)
    requires StrKey(extensionName) !in Keys(c.bundleConfigurations)
    requires UniqueKeys(configuration)
    requires forall n :: 0 <= n < |configuration| ==> configuration[n].key.StrKey?
    ensures Lookup(c.WithBundleConfiguration(extensionName, configuration).bundleConfigurations, StrKey(extensionName))
      == Some(Arr(configuration))
    ensures Keys(c.WithBundleConfiguration(extensionName, configuration).bundleConfigurations)
      == Keys(c.bundleConfigurations) + [StrKey(extensionName)]
  {
    assert c.ExistingConfiguration(extensionName) == [];
    assert MergeFrom([], [], 0) == [];
    MergeFromNewKeys([], configuration, 0);
    assert [] + configuration[0..] == configuration;
  }

  /**
   * Configuring an extension twice merges the two arrays key by key: a key
   * only one call sets keeps that value, a key both set gets them combined.
   */
  lemma ConfigureTwice(c: KernelConfiguration, extensionName: string, first: PhpArray, second: PhpArray, k: Key)
    requires StrKey(extensionName) !in Keys(c.bundleConfigurations)
    requires UniqueKeys(first) && UniqueKeys(second) && k.StrKey?
    ensures
      var stored := c.WithBundleConfiguration(extensionName, first).WithBundleConfiguration(extensionName, second);
      var configs := stored.bundleConfigurations;
      && Lookup(configs, StrKey(extensionName)).Some?
      && Lookup(configs, StrKey(extensionName)).value.Arr?
      && Lookup(Lookup(configs, StrKey(extensionName)).value.entries, k) == MergedValue(Lookup(first, k), Lookup(second, k))
  {
    var once := c.WithBundleConfiguration(extensionName, first);
    var m1 := MergeRecursive([], first);
    assert once.ExistingConfiguration(extensionName) == m1;
    MergeRecursiveLookup([], first, k);
    MergeFromUnique([], first, 0);
    assert MergeFrom([], [], 0) == [];
    assert UniqueKeys(MergeRecursive([], first));
    MergeRecursiveLookup(m1, second, k);
  }

  /**
   * The case of the library's own test: `['enabled' => true, 'foos' => 'foo1']`
   * then `['foos' => 'foo2']` gives `foos => ['foo1', 'foo2']`, not `'foo2'`.
   */
  lemma ScalarsCollideIntoList(c: KernelConfiguration, extensionName: string, key: string, first: Scalar, second: Scalar)
    requires StrKey(extensionName) !in Keys(c.bundleConfigurations)
    ensures
      var stored := c.WithBundleConfiguration(extensionName, [Entry(StrKey(key), Leaf(first))])
                     .WithBundleConfiguration(extensionName, [Entry(StrKey(key), Leaf(second))]);
      var configs := stored.bundleConfigurations;
      && Lookup(configs, StrKey(extensionName)).Some?
      && Lookup(configs, StrKey(extensionName)).value.Arr?
      && Lookup(Lookup(configs, StrKey(extensionName)).value.entries, StrKey(key))
           == Some(Arr([Entry(IntKey(0), Leaf(first)), Entry(IntKey(1), Leaf(second))]))
  {
    var a := [Entry(StrKey(key), Leaf(first))];
    var b := [Entry(StrKey(key), Leaf(second))];
    ConfigureTwice(c, extensionName, a, b, StrKey(key));
    LookupAt(a, 0);
    LookupAt(b, 0);
    CombineScalars(first, second);
  }

  // ---------------------------------------------------------------------
  // The hash

  /** The hash depends only on the serialised tuple: equal tuples give equal hashes. */
  lemma SameSettingsSameHash(c1: KernelConfiguration, c2: KernelConfiguration, sha1: HashInput -> string)
    requires c1.environment == c2.environment && c1.debug == c2.debug
    requires ClassNames(c1.bundles) == ClassNames(c2.bundles)
    requires c1.bundleConfigurations == c2.bundleConfigurations
    ensures c1.GetHash(sha1) == c2.GetHash(sha1)
  {
  }

  /** Two instances of one bundle class give the same hash: instance identity does not count. */
  lemma {:induction false} BundleInstancesDoNotMatter(c: KernelConfiguration, list1: seq<Bundle>, list2: seq<Bundle>, sha1: HashInput -> string)
    requires |list1| == |list2|
    requires forall n :: 0 <= n < |list1| ==> list1[n].className == list2[n].className
    ensures c.WithBundles(list1).GetHash(sha1) == c.WithBundles(list2).GetHash(sha1)
  {
    assert ClassNames(c.bundles + list1) == ClassNames(c.bundles + list2);
  }

  /**
   * With a digest that is injective, two configurations have the same hash
   * exactly when environment, debug flag, bundle classes and bundle
   * configurations all agree.
   */
  lemma HashIdentifiesSettings(c1: KernelConfiguration, c2: KernelConfiguration, sha1: HashInput -> string)
    requires Injective(sha1)
    ensures c1.GetHash(sha1) == c2.GetHash(sha1) <==>
      && c1.environment == c2.environment
      && c1.debug == c2.debug
      && ClassNames(c1.bundles) == ClassNames(c2.bundles)
      && c1.bundleConfigurations == c2.bundleConfigurations
  {
    if c1.GetHash(sha1) == c2.GetHash(sha1) {
      assert sha1(c1.Serialized()) == sha1(c2.Serialized());
    }
  }

  /** One bundle against that bundle plus another: different lists, so different hashes. */
  lemma DifferentBundleListsDifferentHash(c: KernelConfiguration, foo: Bundle, bar: Bundle, sha1: HashInput -> string)
    requires Injective(sha1)
    ensures c.WithBundle(foo).GetHash(sha1) != c.WithBundles([foo, bar]).GetHash(sha1)
  {
    HashIdentifiesSettings(c.WithBundle(foo), c.WithBundles([foo, bar]), sha1);
    assert |ClassNames(c.WithBundle(foo).bundles)| != |ClassNames(c.WithBundles([foo, bar]).bundles)|;
  }
}
