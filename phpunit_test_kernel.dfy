/**
 * The `TestKernel` PHPUnit trait: resolves the kernel class, environment and
 * debug flag from options and the process globals, and keeps the booted
 * kernel in a static slot that is shut down before each new boot.
 */
module PhpUnitTestKernel {
  import opened Wrappers
  import opened PhpArrays
  import opened Configuration
  import opened HttpKernel
  import opened Builder

  /** PHP's `$_ENV` and `$_SERVER`; a missing entry reads as `null`. */
  class Superglobals {
    var env: map<string, string>
    var server: map<string, string>

    constructor(env: map<string, string>, server: map<string, string>)
      ensures this.env == env && this.server == server
    {
      this.env := env;
      this.server := server;
    }
  }

  /**
   * The `$options` of `bootKernel`/`createKernel`. `None` stands for an
   * option that is absent; a debug option may hold any scalar.
   */
  datatype Options = Options(environment: Option<string>, debug: Option<Scalar>, kernelClass: Option<string>)

  /** `$globals[$name]` where `??` reads it. */
  function Get(globals: map<string, string>, name: string): Option<string> {
    if name in globals then Some(globals[name]) else None
  }

  /** `??` treats a `null` value like a missing one. */
  function NonNull(v: Option<Scalar>): Option<Scalar> {
    if v.Some? && v.value.Null? then None else v
  }

  /**
   * A global variable as a scalar. The model keeps only string values in
   * `$_ENV` and `$_SERVER`; PHP also puts arrays and integers there
   * (`argv`, `REQUEST_TIME`), which the variables read here never are.
   */
  function AsScalar(v: Option<string>): Option<Scalar> {
    match v
    case Some(s) => Some(Str(s))
    case None => None
  }

  /** No candidate before position `n` is present. */
  predicate AbsentBefore<T>(candidates: seq<Option<T>>, n: nat)
    requires n <= |candidates|
  {
    forall m :: 0 <= m < n ==> candidates[m].None?
  }

  /**
   * `$a ?? $b ?? ... ?? $default`: the first candidate that is present, or
   * the default when none is.
   */
  function Coalesce<T>(candidates: seq<Option<T>>, default: T): (r: T)
    ensures forall n :: 0 <= n < |candidates| && candidates[n].Some? && AbsentBefore(candidates, n) ==>
      r == candidates[n].value
    ensures (forall n :: 0 <= n < |candidates| ==> candidates[n].None?) ==> r == default
  {
    if candidates == [] then default
    else match candidates[0]
      case Some(v) => v
      case None =>
        var r := Coalesce(candidates[1..], default);
        assert forall n :: 1 <= n < |candidates| ==> candidates[1..][n - 1] == candidates[n];
        assert forall n :: 1 <= n <= |candidates| && AbsentBefore(candidates, n) ==> AbsentBefore(candidates[1..], n - 1);
        r
  }

  /** PHP's `(bool)` cast of a scalar: `null`, `false`, `0`, `""` and `"0"` are false. */
  function ToBool(s: Scalar): (b: bool)
    ensures s.Str? ==> (b <==> s.s != "" && s.s != "0")
    ensures s.Int? ==> (b <==> s.n != 0)
    ensures s.Bool? ==> b == s.b
    ensures s.Null? ==> !b
  {
    match s
    case Null => false
    case Bool(v) => v
    case Int(n) => n != 0
    case Str(t) => t != "" && t != "0"
  }

  /** `getKernelClass`: `$_ENV`, then `$_SERVER`, then the base test kernel. */
  function GetKernelClass(env: map<string, string>, server: map<string, string>): (c: string)
    ensures "KERNEL_CLASS" in env ==> c == env["KERNEL_CLASS"]
    ensures "KERNEL_CLASS" !in env && "KERNEL_CLASS" in server ==> c == server["KERNEL_CLASS"]
    ensures "KERNEL_CLASS" !in env && "KERNEL_CLASS" !in server ==> c == TEST_KERNEL
  {
    var candidates := [Get(env, "KERNEL_CLASS"), Get(server, "KERNEL_CLASS")];
    assert candidates[0].None? ==> AbsentBefore(candidates, 1);
    Coalesce(candidates, TEST_KERNEL)
  }

  /** The kernel class option, or else `getKernelClass`. */
  function ResolveKernelClass(options: Options, env: map<string, string>, server: map<string, string>): (c: string)
    ensures options.kernelClass.Some? ==> c == options.kernelClass.value
    ensures options.kernelClass.None? ==> c == GetKernelClass(env, server)
  {
    Coalesce([options.kernelClass], GetKernelClass(env, server))
  }

  /** The environment option, then `APP_ENV` in `$_ENV`, then in `$_SERVER`, then `test`. */
  function ResolveEnvironment(options: Options, env: map<string, string>, server: map<string, string>): (e: string)
    ensures options.environment.Some? ==> e == options.environment.value
    ensures options.environment.None? && "APP_ENV" in env ==> e == env["APP_ENV"]
    ensures options.environment.None? && "APP_ENV" !in env && "APP_ENV" in server ==> e == server["APP_ENV"]
    ensures options.environment.None? && "APP_ENV" !in env && "APP_ENV" !in server ==> e == DEFAULT_ENVIRONMENT
  {
    var candidates := [options.environment, Get(env, "APP_ENV"), Get(server, "APP_ENV")];
    assert candidates[0].None? ==> AbsentBefore(candidates, 1);
    assert candidates[0].None? && candidates[1].None? ==> AbsentBefore(candidates, 2);
    Coalesce(candidates, DEFAULT_ENVIRONMENT)
  }

  /**
   * The `(bool)` cast of the debug option, then `APP_DEBUG` in `$_ENV`, then
   * in `$_SERVER`, then `true`; so `APP_DEBUG=0` and `APP_DEBUG=` disable it.
   */
  function ResolveDebug(options: Options, env: map<string, string>, server: map<string, string>): (d: bool)
    ensures NonNull(options.debug).Some? ==> d == ToBool(options.debug.value)
    ensures NonNull(options.debug).None? && "APP_DEBUG" in env ==>
      (d <==> env["APP_DEBUG"] != "" && env["APP_DEBUG"] != "0")
    ensures NonNull(options.debug).None? && "APP_DEBUG" !in env && "APP_DEBUG" in server ==>
      (d <==> server["APP_DEBUG"] != "" && server["APP_DEBUG"] != "0")
    ensures NonNull(options.debug).None? && "APP_DEBUG" !in env && "APP_DEBUG" !in server ==> d
  {
    var candidates := [NonNull(options.debug), AsScalar(Get(env, "APP_DEBUG")), AsScalar(Get(server, "APP_DEBUG"))];
    assert candidates[0].None? ==> AbsentBefore(candidates, 1);
    assert candidates[0].None? && candidates[1].None? ==> AbsentBefore(candidates, 2);
    ToBool(Coalesce(candidates, Bool(true)))
  }

  /** The static `$kernel` slot the trait shares between its methods. */
  class KernelSlot {
    var kernel: TestKernel?

    constructor()
      ensures kernel == null
    {
      kernel := null;
    }

    /** `resetKernel`, run before each test: forgets the kernel. */
    method ResetKernel()
      modifies this
      ensures kernel == null
    {
      kernel := null;
    }

    /** `ensureKernelShutdown`: shuts a stored kernel down but leaves it in the slot. */
    method EnsureKernelShutdown()
      modifies kernel
      ensures kernel == old(kernel)
      ensures kernel != null ==> !kernel.booted
    {
      if kernel != null {
        kernel.Shutdown();
      }
    }
  }

  /** A test case that uses the trait: its kernel slot, the globals and the loadable classes. */
  class TestKernelCase {
    const slot: KernelSlot
    const globals: Superglobals
    const classes: ClassRegistry

    constructor(slot: KernelSlot, globals: Superglobals, classes: ClassRegistry)
      ensures this.slot == slot && this.globals == globals && this.classes == classes
    {
      this.slot := slot;
      this.globals := globals;
      this.classes := classes;
    }

    /**
     * `createKernelBuilder`: a new builder with the resolved kernel class,
     * environment and debug flag; fails if the kernel class is rejected.
     */
    method CreateKernelBuilder(options: Options) returns (r: Result<KernelBuilder, BuilderError>)
      ensures var kernelClass := ResolveKernelClass(options, globals.env, globals.server);
        match GuardKernelClass(classes, kernelClass)
        case Fail(e) => r == Failure(e)
        case Pass =>
          && r.Success? && fresh(r.value)
          && r.value.kernelClass == kernelClass
          && r.value.configuration == Default()
               .WithEnvironment(ResolveEnvironment(options, globals.env, globals.server))
               .WithDebug(ResolveDebug(options, globals.env, globals.server))
    {
      var builder := new KernelBuilder();
      var outcome := builder.WithKernelClass(classes, ResolveKernelClass(options, globals.env, globals.server));
      if outcome.Fail? {
        return Failure(outcome.error);
      }
      builder.WithEnvironment(ResolveEnvironment(options, globals.env, globals.server));
      builder.WithDebug(ResolveDebug(options, globals.env, globals.server));
      r := Success(builder);
    }

    /** `createKernel`: an unbooted kernel; the slot is left alone. */
    method CreateKernel(options: Options) returns (r: Result<TestKernel, BuilderError>)
      ensures var kernelClass := ResolveKernelClass(options, globals.env, globals.server);
        match GuardKernelClass(classes, kernelClass)
        case Fail(e) => r == Failure(e)
        case Pass =>
          && r.Success? && fresh(r.value) && !r.value.booted
          && r.value.className == kernelClass
          && r.value.environment == ResolveEnvironment(options, globals.env, globals.server)
          && r.value.debug == ResolveDebug(options, globals.env, globals.server)
    {
      var b := CreateKernelBuilder(options);
      if b.Failure? {
        return Failure(b.error);
      }
      var kernel := b.value.CreateKernel();
      r := Success(kernel);
    }

    /**
     * `bootKernel`: shuts down the stored kernel, then boots a new one and
     * stores it. If the kernel class is rejected the old kernel stays stored,
     * already shut down.
     */
    method BootKernel(options: Options) returns (r: Result<TestKernel, BuilderError>)
      modifies slot, slot.kernel
      ensures old(slot.kernel) != null ==> !old(slot.kernel).booted
      ensures var kernelClass := ResolveKernelClass(options, globals.env, globals.server);
        match GuardKernelClass(classes, kernelClass)
        case Fail(e) => r == Failure(e) && slot.kernel == old(slot.kernel)
        case Pass =>
          && r.Success? && fresh(r.value) && r.value.booted
          && slot.kernel == r.value
          && r.value.className == kernelClass
          && r.value.environment == ResolveEnvironment(options, globals.env, globals.server)
          && r.value.debug == ResolveDebug(options, globals.env, globals.server)
    {
      slot.EnsureKernelShutdown();
      var b := CreateKernelBuilder(options);
      if b.Failure? {
        return Failure(b.error);
      }
      var kernel := b.value.BootKernel();
      slot.kernel := kernel;
      r := Success(kernel);
    }
  }

  /** Options win over the globals, whatever the globals hold. */
  lemma OptionsOverrideGlobals(options: Options, env: map<string, string>, server: map<string, string>, e: string, d: bool, k: string)
    requires options == Options(Some(e), Some(Bool(d)), Some(k))
    ensures ResolveEnvironment(options, env, server) == e
    ensures ResolveDebug(options, env, server) == d
    ensures ResolveKernelClass(options, env, server) == k
  {
  }

  /** With no options and no globals, the defaults: `test`, debug on, the base test kernel. */
  lemma DefaultsWithoutOptionsOrGlobals()
    ensures ResolveEnvironment(Options(None, None, None), map[], map[]) == DEFAULT_ENVIRONMENT
    ensures ResolveDebug(Options(None, None, None), map[], map[])
    ensures ResolveKernelClass(Options(None, None, None), map[], map[]) == TEST_KERNEL
  {
  }
}
