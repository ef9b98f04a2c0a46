/**
 * `TestKernel`: the kernel the library boots. It takes its environment and
 * debug flag from the configuration it is constructed with, keeps that
 * configuration for its whole life, and registers the configured bundles.
 * The framework's boot and shutdown are reduced to a flag.
 */
module HttpKernel {
  import opened Configuration

  /** The fully qualified name of the base test kernel class. */
  const TEST_KERNEL: string := "Zalas\\BundleTest\\HttpKernel\\TestKernel"

  class TestKernel {
    /** The class this instance was created as: `TestKernel` itself or a descendant. */
    const className: string
    /** Fixed at construction; there is no operation that replaces it. */
    const configuration: KernelConfiguration
    /** What the framework's constructor received. */
    const environment: string
    const debug: bool
    /** Whether the framework has booted this kernel and not shut it down since. */
    var booted: bool

    constructor(className: string, configuration: KernelConfiguration)
      ensures this.className == className && this.configuration == configuration
      ensures environment == configuration.environment && debug == configuration.debug
      ensures !booted
    {
      this.className := className;
      this.configuration := configuration;
      this.environment := configuration.environment;
      this.debug := configuration.debug;
      this.booted := false;
    }

    /** The bundles the framework registers: the configured ones, in order. */
    function RegisterBundles(): (list: seq<Bundle>)
      ensures list == configuration.bundles
    {
      configuration.bundles
    }

    /** The container configuration hook; it loads nothing. */
    method RegisterContainerConfiguration()
      ensures booted == old(booted)
    {
    }

    method Boot()
      modifies this
      ensures booted
    {
      booted := true;
    }

    method Shutdown()
      modifies this
      ensures !booted
    {
      booted := false;
    }
  }
}
