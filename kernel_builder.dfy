/**
 * `KernelBuilder`: a mutable builder that holds a kernel class name and a
 * configuration. Its configuration setters replace the stored configuration
 * with the configuration's own `with*` result; `withKernelClass` validates
 * the class first and may fail without changing anything.
 */
module Builder {
  import opened Wrappers
  import opened PhpArrays
  import opened Configuration
  import opened HttpKernel

  /**
   * The classes PHP can load, each with the names of all its ancestors:
   * stands in for `class_exists` and `class_parents`.
   */
  type ClassRegistry = map<string, seq<string>>

  /** The two exceptions `withKernelClass` throws. */
  datatype BuilderError =
    | ClassNotFound(className: string)
    | KernelNotSupported(className: string, expectedClass: string)

  /**
   * The configuration setters the builder calls but the configuration model
   * does not define (`withTempDir`, `withPublicServiceId`,
   * `withPublicServiceIds`); the builder receives them as parameters.
   */
  type ConfigurationSetter<!A> = (KernelConfiguration, A) -> KernelConfiguration

  /** A class that exists and is `TestKernel` or one of its descendants. */
  predicate IsSupportedKernel(classes: ClassRegistry, kernelClass: string) {
    kernelClass in classes && (kernelClass == TEST_KERNEL || TEST_KERNEL in classes[kernelClass])
  }

  /** The checks of `guardKernelClass`: existence first, then ancestry. */
  function GuardKernelClass(classes: ClassRegistry, kernelClass: string): (r: Outcome<BuilderError>)
    ensures r.Pass? <==> IsSupportedKernel(classes, kernelClass)
    ensures r == Fail(ClassNotFound(kernelClass)) <==> kernelClass !in classes
    ensures r == Fail(KernelNotSupported(kernelClass, TEST_KERNEL)) <==>
      kernelClass in classes && !IsSupportedKernel(classes, kernelClass)
  {
    if kernelClass !in classes then
      Fail(ClassNotFound(kernelClass))
    else if kernelClass != TEST_KERNEL && TEST_KERNEL !in classes[kernelClass] then
      Fail(KernelNotSupported(kernelClass, TEST_KERNEL))
    else
      Pass
  }

  class KernelBuilder {
    var kernelClass: string
    var configuration: KernelConfiguration

    constructor()
      ensures kernelClass == TEST_KERNEL && configuration == Default()
    {
      kernelClass := TEST_KERNEL;
      configuration := Default();
    }

    /** A new, unbooted kernel of the stored class over the current configuration. */
    method CreateKernel() returns (kernel: TestKernel)
      ensures fresh(kernel) && !kernel.booted
      ensures kernel.className == kernelClass && kernel.configuration == configuration
      ensures kernel.environment == configuration.environment && kernel.debug == configuration.debug
    {
      kernel := new TestKernel(kernelClass, configuration);
    }

    /** `createKernel` followed by a boot. */
    method BootKernel() returns (kernel: TestKernel)
      ensures fresh(kernel) && kernel.booted
      ensures kernel.className == kernelClass && kernel.configuration == configuration
      ensures kernel.environment == configuration.environment && kernel.debug == configuration.debug
    {
      kernel := CreateKernel();
      kernel.Boot();
    }

    method WithEnvironment(environment: string)
      modifies this
      ensures configuration == old(configuration).WithEnvironment(environment)
      ensures kernelClass == old(kernelClass)
    {
      configuration := configuration.WithEnvironment(environment);
    }

    method WithDebug(debug: bool)
      modifies this
      ensures configuration == old(configuration).WithDebug(debug)
      ensures kernelClass == old(kernelClass)
    {
      configuration := configuration.WithDebug(debug);
    }

    method WithBundles(bundles: seq<Bundle>)
      modifies this
      ensures configuration == old(configuration).WithBundles(bundles)
      ensures configuration.bundles == old(configuration.bundles) + bundles
      ensures kernelClass == old(kernelClass)
    {
      configuration := configuration.WithBundles(bundles);
    }

    method WithBundle(bundle: Bundle)
      modifies this
      ensures configuration == old(configuration).WithBundle(bundle)
      ensures kernelClass == old(kernelClass)
    {
      configuration := configuration.WithBundle(bundle);
    }

    method WithBundleConfiguration(extensionName: string, bundleConfiguration: PhpArray)
      modifies this
      ensures configuration == old(configuration).WithBundleConfiguration(extensionName, bundleConfiguration)
      ensures kernelClass == old(kernelClass)
    {
      configuration := configuration.WithBundleConfiguration(extensionName, bundleConfiguration);
    }

    method WithPublicService(serviceId: string, withPublicServiceId: ConfigurationSetter<string>)
      modifies this
      ensures configuration == withPublicServiceId(old(configuration), serviceId)
      ensures kernelClass == old(kernelClass)
    {
      configuration := withPublicServiceId(configuration, serviceId);
    }

    method WithPublicServices(serviceIds: seq<string>, withPublicServiceIds: ConfigurationSetter<seq<string>>)
      modifies this
      ensures configuration == withPublicServiceIds(old(configuration), serviceIds)
      ensures kernelClass == old(kernelClass)
    {
      configuration := withPublicServiceIds(configuration, serviceIds);
    }

    method WithTempDir(tempDir: string, withTempDir: ConfigurationSetter<string>)
      modifies this
      ensures configuration == withTempDir(old(configuration), tempDir)
      ensures kernelClass == old(kernelClass)
    {
      configuration := withTempDir(configuration, tempDir);
    }

    /**
     * Stores `newClass` if it is a supported kernel class; otherwise fails
     * with the guard's error and keeps the previous class. A builder whose
     * class is supported stays so.
     */
    method WithKernelClass(classes: ClassRegistry, newClass: string) returns (outcome: Outcome<BuilderError>)
      modifies this
      ensures outcome == GuardKernelClass(classes, newClass)
      ensures kernelClass == if outcome.Pass? then newClass else old(kernelClass)
      ensures configuration == old(configuration)
      ensures IsSupportedKernel(classes, old(kernelClass)) ==> IsSupportedKernel(classes, kernelClass)
    {
      outcome := GuardKernelClass(classes, newClass);
      if outcome.Pass? {
        kernelClass := newClass;
      }
    }
  }
}
