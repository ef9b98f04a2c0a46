/**
 * The scenarios of the `ConfigurableKernel` trait's own test case, each a
 * sequence of `given*` calls and a boot whose outcome follows from the
 * contracts of those calls alone. The fixture's `CustomKernel` is any class
 * the registry accepts as a test kernel.
 */
module ConfigurableKernelTest {
  import opened Wrappers
  import opened PhpArrays
  import opened Configuration
  import opened HttpKernel
  import opened Builder
  import opened PhpUnitTestKernel
  import opened ConfigurableKernel

  /** `bootKernel()` without options. */
  const NO_OPTIONS: Options := Options(None, None, None)

  /** A configured environment is the booted kernel's environment. */
  method ItConfiguresTheKernelEnvironment(tc: ConfigurableKernelCase) returns (r: Result<TestKernel, BuilderError>)
    requires tc.kernelBuilder != null && !tc.Locked()
    modifies tc.kernelBuilder, tc.slot, tc.slot.kernel
    ensures r.Success? && r.value.booted && r.value.environment == "foo"
  {
    var given := tc.GivenEnvironment("foo");
    r := tc.BootKernel(NO_OPTIONS);
  }

  /** Enabling or disabling debug decides the booted kernel's debug flag. */
  method ItSetsTheKernelDebugFlag(tc: ConfigurableKernelCase, enabled: bool) returns (r: Result<TestKernel, BuilderError>)
    requires tc.kernelBuilder != null && !tc.Locked()
    modifies tc.kernelBuilder, tc.slot, tc.slot.kernel
    ensures r.Success? && r.value.booted && r.value.debug == enabled
  {
    var given;
    if enabled {
      given := tc.GivenDebugIsEnabled();
    } else {
      given := tc.GivenDebugIsDisabled();
    }
    r := tc.BootKernel(NO_OPTIONS);
  }

  /** A configured kernel class is the booted kernel's class. */
  method ItConfiguresTheKernelClass(tc: ConfigurableKernelCase, customKernel: string) returns (r: Result<TestKernel, BuilderError>)
    requires tc.kernelBuilder != null && !tc.Locked()
    requires IsSupportedKernel(tc.classes, customKernel)
    modifies tc.kernelBuilder, tc.slot, tc.slot.kernel
    ensures r.Success? && r.value.booted && r.value.className == customKernel
  {
    var given := tc.GivenKernel(customKernel);
    r := tc.BootKernel(NO_OPTIONS);
  }

  /** Options passed to `bootKernel` take precedence over earlier `given*` calls. */
  method OptionsTakePrecedence(tc: ConfigurableKernelCase, customKernel: string) returns (r: Result<TestKernel, BuilderError>)
    requires tc.kernelBuilder != null && !tc.Locked()
    requires IsSupportedKernel(tc.classes, customKernel)
    modifies tc.kernelBuilder, tc.slot, tc.slot.kernel
    ensures r.Success? && r.value.className == customKernel
    ensures r.value.environment == "bar" && r.value.debug
  {
    var environment := tc.GivenEnvironment("foo");
    var debug := tc.GivenDebugIsDisabled();
    r := tc.BootKernel(Options(Some("bar"), Some(Bool(true)), Some(customKernel)));
  }

  /** Without `given*` calls, `$_ENV` decides the kernel class, environment and debug flag. */
  method EnvironmentVariablesAreRead(tc: ConfigurableKernelCase, customKernel: string) returns (r: Result<TestKernel, BuilderError>)
    requires !tc.Locked()
    requires tc.globals.env == map["APP_ENV" := "bar", "APP_DEBUG" := "0", "KERNEL_CLASS" := customKernel]
    requires IsSupportedKernel(tc.classes, customKernel)
    modifies tc, tc.slot, tc.slot.kernel
    ensures r.Success? && r.value.className == customKernel
    ensures r.value.environment == "bar" && !r.value.debug
  {
    var initialized := tc.InitializeKernelBuilder();
    r := tc.BootKernel(NO_OPTIONS);
  }

  /** Without `given*` calls or `$_ENV` entries, `$_SERVER` decides them. */
  method ServerVariablesAreRead(tc: ConfigurableKernelCase, customKernel: string) returns (r: Result<TestKernel, BuilderError>)
    requires !tc.Locked()
    requires tc.globals.env == map[]
    requires tc.globals.server == map["APP_ENV" := "bar", "APP_DEBUG" := "0", "KERNEL_CLASS" := customKernel]
    requires IsSupportedKernel(tc.classes, customKernel)
    modifies tc, tc.slot, tc.slot.kernel
    ensures r.Success? && r.value.className == customKernel
    ensures r.value.environment == "bar" && !r.value.debug
  {
    var initialized := tc.InitializeKernelBuilder();
    r := tc.BootKernel(NO_OPTIONS);
  }

  /** `given*` calls override whatever the globals say. */
  method GlobalsAreOverriddenByCustomConfiguration(tc: ConfigurableKernelCase, customKernel: string)
    returns (r: Result<TestKernel, BuilderError>)
    requires !tc.Locked()
    requires IsSupportedKernel(tc.classes, customKernel)
    modifies tc, tc.slot, tc.slot.kernel
    ensures r.Success? && r.value.className == customKernel
    ensures r.value.environment == "foo" && !r.value.debug
  {
    var initialized := tc.InitializeKernelBuilder();
    var environment := tc.GivenEnvironment("foo");
    var debug := tc.GivenDebugIsDisabled();
    var kernel := tc.GivenKernel(customKernel);
    r := tc.BootKernel(NO_OPTIONS);
  }

  /** An enabled bundle is the one bundle the booted kernel registers. */
  method ItEnablesABundle(tc: ConfigurableKernelCase, fooBundle: Bundle) returns (r: Result<TestKernel, BuilderError>)
    requires !tc.Locked()
    modifies tc, tc.slot, tc.slot.kernel
    ensures r.Success? && r.value.RegisterBundles() == [fooBundle]
  {
    var initialized := tc.InitializeKernelBuilder();
    var given := tc.GivenBundleIsEnabled(fooBundle);
    r := tc.BootKernel(NO_OPTIONS);
  }

  /** Enabled bundles are the bundles the booted kernel registers. */
  method ItEnablesBundles(tc: ConfigurableKernelCase, bundles: seq<Bundle>) returns (r: Result<TestKernel, BuilderError>)
    requires !tc.Locked()
    modifies tc, tc.slot, tc.slot.kernel
    ensures r.Success? && r.value.RegisterBundles() == bundles
  {
    var initialized := tc.InitializeKernelBuilder();
    var given := tc.GivenBundlesAreEnabled(bundles);
    r := tc.BootKernel(NO_OPTIONS);
  }

  /** Once a kernel is booted every `given*` call throws a `LogicException`. */
  method NothingCanBeChangedOnceBooted(
    tc: ConfigurableKernelCase,
    fooBundle: Bundle,
    customKernel: string,
    withPublicServiceId: ConfigurationSetter<string>,
    withPublicServiceIds: ConfigurationSetter<seq<string>>,
    withTempDir: ConfigurationSetter<string>)
    returns (outcomes: seq<Outcome<ConfigurationError>>)
    requires tc.kernelBuilder != null
    modifies tc.kernelBuilder, tc.slot, tc.slot.kernel
    ensures |outcomes| == 10
    ensures forall n :: 0 <= n < |outcomes| ==> outcomes[n] == Fail(LogicError)
  {
    var r := tc.BootKernel(NO_OPTIONS);
    var environment := tc.GivenEnvironment("foo");
    var debugDisabled := tc.GivenDebugIsDisabled();
    var debugEnabled := tc.GivenDebugIsEnabled();
    var kernel := tc.GivenKernel(customKernel);
    var configuration := tc.GivenBundleConfiguration("foo", [Entry(StrKey("enabled"), Leaf(Bool(true)))]);
    var service := tc.GivenPublicServiceId("foo", withPublicServiceId);
    var services := tc.GivenPublicServiceIds(["foo"], withPublicServiceIds);
    var bundle := tc.GivenBundleIsEnabled(fooBundle);
    var bundles := tc.GivenBundlesAreEnabled([fooBundle]);
    var tempDir := tc.GivenTempDir("/tmp", withTempDir);
    outcomes := [environment, debugDisabled, debugEnabled, kernel, configuration, service, services, bundle, bundles, tempDir];
  }
}
