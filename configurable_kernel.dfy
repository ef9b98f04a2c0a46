/**
 * The `ConfigurableKernel` PHPUnit trait: a builder shared by one test, set
 * up from the globals before the test and changed by `given*` calls until a
 * kernel is stored in the kernel slot.
 */
module ConfigurableKernel {
  import opened Wrappers
  import opened PhpArrays
  import opened Configuration
  import opened HttpKernel
  import opened Builder
  import opened PhpUnitTestKernel

  /** What a `given*` call can throw. */
  datatype ConfigurationError =
    | LogicError                          // configuration changed after a kernel was stored
    | BuilderFailure(error: BuilderError) // the builder rejected a kernel class

  /** `$_ENV[$name] ?? $_SERVER[$name] ?? null`. */
  function GlobalVariable(env: map<string, string>, server: map<string, string>, name: string): (v: Option<string>)
    ensures v.Some? <==> name in env || name in server
    ensures name in env ==> v == Some(env[name])
    ensures name !in env && name in server ==> v == Some(server[name])
  {
    if name in env then Some(env[name]) else Get(server, name)
  }

  /** The configuration `initializeKernelBuilder` leaves once the kernel class was accepted. */
  function InitialConfiguration(env: map<string, string>, server: map<string, string>): (c: KernelConfiguration)
    ensures c.Valid() && c.bundles == [] && c.bundleConfigurations == []
  {
    var withEnvironment := match GlobalVariable(env, server, "APP_ENV")
      case Some(e) => Default().WithEnvironment(e)
      case None => Default();
    match GlobalVariable(env, server, "APP_DEBUG")
    case Some(d) => withEnvironment.WithDebug(ToBool(Str(d)))
    case None => withEnvironment
  }

  /** The options `createKernelBuilder` applies to the shared builder; absent or `null` options leave it alone. */
  function ApplyOptions(c: KernelConfiguration, options: Options): (r: KernelConfiguration)
    ensures r.bundles == c.bundles && r.bundleConfigurations == c.bundleConfigurations
    ensures r.environment == if options.environment.Some? then options.environment.value else c.environment
    ensures r.debug == if NonNull(options.debug).Some? then ToBool(options.debug.value) else c.debug
    ensures options.environment.None? && NonNull(options.debug).None? ==> r == c
  {
    var withEnvironment := match options.environment
      case Some(e) => c.WithEnvironment(e)
      case None => c;
    match NonNull(options.debug)
    case Some(d) => withEnvironment.WithDebug(ToBool(d))
    case None => withEnvironment
  }

  /** `str_replace('\\', '', $s)`: the characters of `s` other than backslashes, in order. */
  function StripBackslashes(s: string): (r: string)
    ensures '\\' !in r
    ensures |r| <= |s|
    ensures forall c :: c != '\\' ==> multiset(r)[c] == multiset(s)[c]
    ensures '\\' !in s ==> r == s
  {
    if s == [] then []
    else
      assert s == [s[0]] + s[1..];
      (if s[0] == '\\' then [] else [s[0]]) + StripBackslashes(s[1..])
  }

  /** Stripping a concatenation strips each part: the kept characters stay in their order. */
  lemma {:induction false} StripBackslashesConcat(a: string, b: string)
    ensures StripBackslashes(a + b) == StripBackslashes(a) + StripBackslashes(b)
    decreases |a|
  {
    if a != [] {
      assert (a + b)[0] == a[0];
      assert (a + b)[1..] == a[1..] + b;
      StripBackslashesConcat(a[1..], b);
      var head := if a[0] == '\\' then [] else [a[0]];
      assert head + (StripBackslashes(a[1..]) + StripBackslashes(b)) == (head + StripBackslashes(a[1..])) + StripBackslashes(b);
    } else {
      assert a + b == b;
    }
  }

  /** A single character is dropped exactly when it is a backslash. */
  lemma StripBackslashesChar(c: char)
    ensures StripBackslashes([c]) == if c == '\\' then [] else [c]
  {
  }

  /** `getTestNamespace`: the test class name without namespace separators. */
  function GetTestNamespace(testClass: string): (ns: string)
    ensures '\\' !in ns
    ensures forall c :: c != '\\' ==> multiset(ns)[c] == multiset(testClass)[c]
    ensures ns == StripBackslashes(testClass)
  {
    StripBackslashes(testClass)
  }

  /** A test case that uses the trait, with the builder it shares between `given*` calls. */
  class ConfigurableKernelCase {
    const slot: KernelSlot
    const globals: Superglobals
    const classes: ClassRegistry
    var kernelBuilder: KernelBuilder?

    constructor(slot: KernelSlot, globals: Superglobals, classes: ClassRegistry)
      ensures this.slot == slot && this.globals == globals && this.classes == classes
      ensures kernelBuilder == null
    {
      this.slot := slot;
      this.globals := globals;
      this.classes := classes;
      kernelBuilder := null;
    }

    /** A kernel is stored in the slot, booted or already shut down: configuration is locked. */
    predicate Locked()
      reads slot
    {
      slot.kernel != null
    }

    /**
     * `initializeKernelBuilder`, run before each test: a new builder with the
     * kernel class from the globals, then `APP_ENV` and `APP_DEBUG` when set.
     * A rejected kernel class leaves the new builder at its defaults.
     */
    method InitializeKernelBuilder() returns (outcome: Outcome<BuilderError>)
      modifies this
      ensures kernelBuilder != null && fresh(kernelBuilder)
      ensures var kernelClass := GetKernelClass(globals.env, globals.server);
        && outcome == GuardKernelClass(classes, kernelClass)
        && kernelBuilder.kernelClass == (if outcome.Pass? then kernelClass else TEST_KERNEL)
        && kernelBuilder.configuration == (if outcome.Pass? then InitialConfiguration(globals.env, globals.server) else Default())
    {
      var builder := new KernelBuilder();
      kernelBuilder := builder;
      outcome := builder.WithKernelClass(classes, GetKernelClass(globals.env, globals.server));
      if outcome.Fail? {
        return;
      }
      var environment := GlobalVariable(globals.env, globals.server, "APP_ENV");
      if environment.Some? {
        builder.WithEnvironment(environment.value);
      }
      var debug := GlobalVariable(globals.env, globals.server, "APP_DEBUG");
      if debug.Some? {
        builder.WithDebug(ToBool(Str(debug.value)));
      }
    }

    /**
     * `createKernelBuilder` as this trait overrides it: applies the options to
     * the shared builder and returns that builder. The kernel class option is
     * applied last, so when it is rejected the other options stay applied.
     */
    method CreateKernelBuilder(options: Options) returns (r: Result<KernelBuilder, BuilderError>)
      requires kernelBuilder != null
      modifies kernelBuilder
      ensures kernelBuilder.configuration == ApplyOptions(old(kernelBuilder.configuration), options)
      ensures match options.kernelClass
        case None => r == Success(kernelBuilder) && kernelBuilder.kernelClass == old(kernelBuilder.kernelClass)
        case Some(k) =>
          match GuardKernelClass(classes, k)
          case Pass => r == Success(kernelBuilder) && kernelBuilder.kernelClass == k
          case Fail(e) => r == Failure(e) && kernelBuilder.kernelClass == old(kernelBuilder.kernelClass)
    {
      var builder := kernelBuilder;
      if options.environment.Some? {
        builder.WithEnvironment(options.environment.value);
      }
      var debug := NonNull(options.debug);
      if debug.Some? {
        builder.WithDebug(ToBool(debug.value));
      }
      if options.kernelClass.Some? {
        var outcome := builder.WithKernelClass(classes, options.kernelClass.value);
        if outcome.Fail? {
          return Failure(outcome.error);
        }
      }
      r := Success(builder);
    }

    /** `createKernel`: a kernel from the shared builder, after the options were applied to it. */
    method CreateKernel(options: Options) returns (r: Result<TestKernel, BuilderError>)
      requires kernelBuilder != null
      modifies kernelBuilder
      ensures kernelBuilder.configuration == ApplyOptions(old(kernelBuilder.configuration), options)
      ensures r.Success? <==> options.kernelClass.None? || IsSupportedKernel(classes, options.kernelClass.value)
      ensures r.Failure? ==> Fail(r.error) == GuardKernelClass(classes, options.kernelClass.value)
      ensures kernelBuilder.kernelClass ==
        if r.Success? && options.kernelClass.Some? then options.kernelClass.value else old(kernelBuilder.kernelClass)
      ensures r.Success? ==>
        && fresh(r.value) && !r.value.booted
        && r.value.className == (if options.kernelClass.Some? then options.kernelClass.value else old(kernelBuilder.kernelClass))
        && r.value.configuration == kernelBuilder.configuration
        && r.value.environment == (if options.environment.Some? then options.environment.value else old(kernelBuilder.configuration.environment))
        && r.value.debug == (if NonNull(options.debug).Some? then ToBool(options.debug.value) else old(kernelBuilder.configuration.debug))
    {
      var b := CreateKernelBuilder(options);
      if b.Failure? {
        return Failure(b.error);
      }
      var kernel := b.value.CreateKernel();
      r := Success(kernel);
    }

    /**
     * `bootKernel`: shuts the stored kernel down, then boots one from the
     * shared builder and stores it, which locks the configuration.
     */
    method BootKernel(options: Options) returns (r: Result<TestKernel, BuilderError>)
      requires kernelBuilder != null
      modifies slot, slot.kernel, kernelBuilder
      ensures old(slot.kernel) != null ==> !old(slot.kernel).booted
      ensures kernelBuilder.configuration == ApplyOptions(old(kernelBuilder.configuration), options)
      ensures r.Success? <==> options.kernelClass.None? || IsSupportedKernel(classes, options.kernelClass.value)
      ensures r.Failure? ==> Fail(r.error) == GuardKernelClass(classes, options.kernelClass.value) && slot.kernel == old(slot.kernel)
      ensures kernelBuilder.kernelClass ==
        if r.Success? && options.kernelClass.Some? then options.kernelClass.value else old(kernelBuilder.kernelClass)
      ensures r.Success? ==>
        && fresh(r.value) && r.value.booted && slot.kernel == r.value && Locked()
        && r.value.className == (if options.kernelClass.Some? then options.kernelClass.value else old(kernelBuilder.kernelClass))
        && r.value.configuration == kernelBuilder.configuration
        && r.value.environment == (if options.environment.Some? then options.environment.value else old(kernelBuilder.configuration.environment))
        && r.value.debug == (if NonNull(options.debug).Some? then ToBool(options.debug.value) else old(kernelBuilder.configuration.debug))
    {
      slot.EnsureKernelShutdown();
      var b := CreateKernelBuilder(options);
      if b.Failure? {
        return Failure(b.error);
      }
      var kernel := b.value.BootKernel();
      slot.kernel := kernel;
      r := Success(kernel);
    }

    /** `ensureKernelNotBooted`: fails exactly when a kernel is stored. */
    method EnsureKernelNotBooted() returns (outcome: Outcome<ConfigurationError>)
      ensures outcome.Pass? <==> !Locked()
      ensures outcome.Fail? ==> outcome.error == LogicError
    {
      if slot.kernel != null {
        return Fail(LogicError);
      }
      return Pass;
    }

    /** `givenEnvironment`. */
    method GivenEnvironment(environment: string) returns (outcome: Outcome<ConfigurationError>)
      requires kernelBuilder != null
      modifies kernelBuilder
      ensures outcome.Pass? <==> !Locked()
      ensures outcome.Fail? ==> outcome.error == LogicError
      ensures kernelBuilder.kernelClass == old(kernelBuilder.kernelClass)
      ensures kernelBuilder.configuration ==
        if outcome.Pass? then old(kernelBuilder.configuration).WithEnvironment(environment) else old(kernelBuilder.configuration)
    {
      outcome := EnsureKernelNotBooted();
      if outcome.Pass? {
        kernelBuilder.WithEnvironment(environment);
      }
    }

    /** `givenDebugIsEnabled`. */
    method GivenDebugIsEnabled() returns (outcome: Outcome<ConfigurationError>)
      requires kernelBuilder != null
      modifies kernelBuilder
      ensures outcome.Pass? <==> !Locked()
      ensures outcome.Fail? ==> outcome.error == LogicError
      ensures kernelBuilder.kernelClass == old(kernelBuilder.kernelClass)
      ensures kernelBuilder.configuration ==
        if outcome.Pass? then old(kernelBuilder.configuration).WithDebug(true) else old(kernelBuilder.configuration)
    {
      outcome := EnsureKernelNotBooted();
      if outcome.Pass? {
        kernelBuilder.WithDebug(true);
      }
    }

    /** `givenDebugIsDisabled`. */
    method GivenDebugIsDisabled() returns (outcome: Outcome<ConfigurationError>)
      requires kernelBuilder != null
      modifies kernelBuilder
      ensures outcome.Pass? <==> !Locked()
      ensures outcome.Fail? ==> outcome.error == LogicError
      ensures kernelBuilder.kernelClass == old(kernelBuilder.kernelClass)
      ensures kernelBuilder.configuration ==
        if outcome.Pass? then old(kernelBuilder.configuration).WithDebug(false) else old(kernelBuilder.configuration)
    {
      outcome := EnsureKernelNotBooted();
      if outcome.Pass? {
        kernelBuilder.WithDebug(false);
      }
    }

    /** `givenKernel`: locked first, then the builder's class check. */
    method GivenKernel(kernelClass: string) returns (outcome: Outcome<ConfigurationError>)
      requires kernelBuilder != null
      modifies kernelBuilder
      ensures Locked() ==> outcome == Fail(LogicError)
      ensures !Locked() ==> match GuardKernelClass(classes, kernelClass)
        case Pass => outcome == Pass
        case Fail(e) => outcome == Fail(BuilderFailure(e))
      ensures kernelBuilder.kernelClass == if outcome.Pass? then kernelClass else old(kernelBuilder.kernelClass)
      ensures kernelBuilder.configuration == old(kernelBuilder.configuration)
    {
      outcome := EnsureKernelNotBooted();
      if outcome.Pass? {
        var guarded := kernelBuilder.WithKernelClass(classes, kernelClass);
        if guarded.Fail? {
          outcome := Fail(BuilderFailure(guarded.error));
        }
      }
    }

    /** `givenBundleConfiguration`. */
    method GivenBundleConfiguration(extensionName: string, configuration: PhpArray) returns (outcome: Outcome<ConfigurationError>)
      requires kernelBuilder != null
      modifies kernelBuilder
      ensures outcome.Pass? <==> !Locked()
      ensures outcome.Fail? ==> outcome.error == LogicError
      ensures kernelBuilder.kernelClass == old(kernelBuilder.kernelClass)
      ensures kernelBuilder.configuration ==
        if outcome.Pass? then old(kernelBuilder.configuration).WithBundleConfiguration(extensionName, configuration)
        else old(kernelBuilder.configuration)
    {
      outcome := EnsureKernelNotBooted();
      if outcome.Pass? {
        kernelBuilder.WithBundleConfiguration(extensionName, configuration);
      }
    }

    /** `givenPublicServiceId`. */
    method GivenPublicServiceId(serviceId: string, withPublicServiceId: ConfigurationSetter<string>)
      returns (outcome: Outcome<ConfigurationError>)
      requires kernelBuilder != null
      modifies kernelBuilder
      ensures outcome.Pass? <==> !Locked()
      ensures outcome.Fail? ==> outcome.error == LogicError
      ensures kernelBuilder.kernelClass == old(kernelBuilder.kernelClass)
      ensures kernelBuilder.configuration ==
        if outcome.Pass? then withPublicServiceId(old(kernelBuilder.configuration), serviceId) else old(kernelBuilder.configuration)
    {
      outcome := EnsureKernelNotBooted();
      if outcome.Pass? {
        kernelBuilder.WithPublicService(serviceId, withPublicServiceId);
      }
    }

    /** `givenPublicServiceIds`. */
    method GivenPublicServiceIds(serviceIds: seq<string>, withPublicServiceIds: ConfigurationSetter<seq<string>>)
      returns (outcome: Outcome<ConfigurationError>)
      requires kernelBuilder != null
      modifies kernelBuilder
      ensures outcome.Pass? <==> !Locked()
      ensures outcome.Fail? ==> outcome.error == LogicError
      ensures kernelBuilder.kernelClass == old(kernelBuilder.kernelClass)
      ensures kernelBuilder.configuration ==
        if outcome.Pass? then withPublicServiceIds(old(kernelBuilder.configuration), serviceIds) else old(kernelBuilder.configuration)
    {
      outcome := EnsureKernelNotBooted();
      if outcome.Pass? {
        kernelBuilder.WithPublicServices(serviceIds, withPublicServiceIds);
      }
    }

    /** `givenBundlesAreEnabled`: the bundles join the end of the list. */
    method GivenBundlesAreEnabled(bundles: seq<Bundle>) returns (outcome: Outcome<ConfigurationError>)
      requires kernelBuilder != null
      modifies kernelBuilder
      ensures outcome.Pass? <==> !Locked()
      ensures outcome.Fail? ==> outcome.error == LogicError
      ensures kernelBuilder.kernelClass == old(kernelBuilder.kernelClass)
      ensures kernelBuilder.configuration ==
        if outcome.Pass? then old(kernelBuilder.configuration).(bundles := old(kernelBuilder.configuration.bundles) + bundles)
        else old(kernelBuilder.configuration)
    {
      outcome := EnsureKernelNotBooted();
      if outcome.Pass? {
        kernelBuilder.WithBundles(bundles);
      }
    }

    /** `givenBundleIsEnabled`. */
    method GivenBundleIsEnabled(bundle: Bundle) returns (outcome: Outcome<ConfigurationError>)
      requires kernelBuilder != null
      modifies kernelBuilder
      ensures outcome.Pass? <==> !Locked()
      ensures outcome.Fail? ==> outcome.error == LogicError
      ensures kernelBuilder.kernelClass == old(kernelBuilder.kernelClass)
      ensures kernelBuilder.configuration ==
        if outcome.Pass? then old(kernelBuilder.configuration).WithBundle(bundle) else old(kernelBuilder.configuration)
    {
      outcome := EnsureKernelNotBooted();
      if outcome.Pass? {
        kernelBuilder.WithBundle(bundle);
      }
    }

    /** `givenTempDir`. */
    method GivenTempDir(tempDir: string, withTempDir: ConfigurationSetter<string>) returns (outcome: Outcome<ConfigurationError>)
      requires kernelBuilder != null
      modifies kernelBuilder
      ensures outcome.Pass? <==> !Locked()
      ensures outcome.Fail? ==> outcome.error == LogicError
      ensures kernelBuilder.kernelClass == old(kernelBuilder.kernelClass)
      ensures kernelBuilder.configuration ==
        if outcome.Pass? then withTempDir(old(kernelBuilder.configuration), tempDir) else old(kernelBuilder.configuration)
    {
      outcome := EnsureKernelNotBooted();
      if outcome.Pass? {
        kernelBuilder.WithTempDir(tempDir, withTempDir);
      }
    }
  }

  /**
   * Without `given*` calls, a test using this trait gets the configuration
   * the plain `TestKernel` trait would build from the same options and
   * globals: options first, then `$_ENV`, then `$_SERVER`, then the defaults.
   */
  lemma ConfigurableAgreesWithTestKernel(options: Options, env: map<string, string>, server: map<string, string>)
    ensures ApplyOptions(InitialConfiguration(env, server), options)
      == Default().WithEnvironment(ResolveEnvironment(options, env, server)).WithDebug(ResolveDebug(options, env, server))
  {
  }

  /** With neither `APP_ENV` nor `APP_DEBUG` set, the builder starts from the default configuration. */
  lemma InitialConfigurationWithoutGlobals(env: map<string, string>, server: map<string, string>)
    requires "APP_ENV" !in env && "APP_ENV" !in server
    requires "APP_DEBUG" !in env && "APP_DEBUG" !in server
    ensures InitialConfiguration(env, server) == Default()
  {
  }
}
