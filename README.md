# zalas/bundle-test in Dafny

A model of the bundle-test library. It builds a Symfony test kernel from a
configuration value. The kernel is scoped by a hash of its settings. The
library also offers PHPUnit traits that boot such kernels from options and
globals.

The model covers seven parts:

- **`KernelConfiguration`** (`kernel_configuration.dfy`, module `Configuration`). An
  immutable record of environment, debug flag, bundles and bundle
  configurations. It has the `with*` copies, the recursive merge of bundle
  configurations and the configuration hash. PHP arrays and the built-in
  `array_merge_recursive` live in `php_arrays.dfy` (module `PhpArrays`).
  - A PHP array is an ordered sequence of integer- or string-keyed entries.
  - The merge follows PHP's own implementation entry by entry.
- **`KernelBuilder`** (`kernel_builder.dfy`, module `Builder`). A class whose
  `kernelClass` and `configuration` fields are reassigned by its `with*`
  methods. The class check of `withKernelClass` fails with
  `ClassNotFound` or `KernelNotSupported`.
- **`HttpKernel\TestKernel`** (`test_kernel.dfy`, module `HttpKernel`). A kernel
  that keeps its configuration fixed and reports the configuration's bundles.
  Boot and shutdown are a flag.
- **The `TestKernel` PHPUnit trait** (`phpunit_test_kernel.dfy`, module
  `PhpUnitTestKernel`).
  - The `??` precedence chains for kernel class, environment and debug
    flag. Debug uses PHP's `(bool)` cast.
  - The static kernel slot, which is shut down before each re-boot.
- **The `ConfigurableKernel` trait** (`configurable_kernel.dfy`).
  - A builder shared by one test, set up from `$_ENV`/`$_SERVER`.
  - The options applied on top of it.
  - The `given*` methods, which fail once a kernel is stored in the slot.
- **The trait's own test scenarios** (`configurable_kernel_test.dfy`, module
  `ConfigurableKernelTest`). Each is a sequence of `given*` calls and a boot,
  whose result follows from the contracts of those calls.
- **The `GlobalsAnnotations` test helper** (`globals_annotations.dfy`). It parses
  `@env`/`@server NAME=value` annotations and writes them into the globals.

`wrappers.dfy` holds `Option`, `Result` and `Outcome`. They stand for
nullable values and for operations that return or throw.

### Inputs and interfaces

External inputs become parameters or fields:

- `$_ENV` and `$_SERVER` are the two maps of a `Superglobals` object.
- The autoloader (`class_exists`, `class_parents`) is a `ClassRegistry` map
  from class name to its ancestors.
- `sha1(serialize(...))` is a digest function passed to `GetHash`.
- PHPUnit's `getAnnotations()` arrives as two annotation tables, one for the
  class and one for the method.

`KernelBuilder` calls three configuration setters that
`KernelConfiguration.php` does not define: `withPublicServiceId`,
`withPublicServiceIds` and `withTempDir`. They are function parameters of
type `ConfigurationSetter`. The builder replaces its configuration with the
setter's result and nothing more is assumed of them.

The getters of `KernelConfiguration` (`getEnvironment`, `isDebug`,
`getBundles`, `getAllBundleConfigurations`) are the fields of the datatype.

### `array_merge_recursive` on colliding keys

`withBundleConfiguration` merges with `array_merge_recursive`. When both
sides hold scalars under one string key, the result holds the list
`[first, second]`; the later value does not replace the earlier one. Lists
are appended to each other, and nested arrays are merged key by key.

- `CombineScalars` and `Configuration.ScalarsCollideIntoList` state the
  `[first, second]` result.
- `PhpArrays.MergeRecursiveLookup` states the general per-key rule.
- `PhpArrays.MergeRecursiveIntKeys` states that integer keys are not
  matched up: the integer-keyed values of both sides are all kept, in order,
  and renumbered from 0.

## Model

| member | source | states |
|---|---|---|
| PhpArrays.Lookup | src/HttpKernel/KernelConfiguration.php:69 | `$a[$k] ?? null` is absent exactly when the key is not in the array, and otherwise is a value stored under that key |
| PhpArrays.Put | tests/PHPUnit/GlobalsAnnotations.php:52-55 | `$a[$k] = $v` keeps the position of an existing key, adds a new key at the end, stores `v` under `k` and leaves every other key's value unchanged |
| PhpArrays.NextIndex | src/HttpKernel/KernelConfiguration.php:68-71 | the index `array_merge_recursive` appends under is above every integer key and is 0 or one past an existing integer key |
| PhpArrays.Append | src/HttpKernel/KernelConfiguration.php:68-71 | appending adds one fresh integer key at the end and the value after all existing values |
| PhpArrays.MergeFromUnique | src/HttpKernel/KernelConfiguration.php:68-71 | merging an array into a well-formed array keeps every key unique |
| PhpArrays.AsList | src/HttpKernel/KernelConfiguration.php:68-71 | a colliding array value is taken as it is; a colliding scalar becomes the one-element list holding it under index 0 |
| PhpArrays.Step | src/HttpKernel/KernelConfiguration.php:68-71 | merging one entry adds at most one entry and removes none |
| PhpArrays.Combine | src/HttpKernel/KernelConfiguration.php:68-71 | the combined list is at least as long as the earlier value taken as a list, and a scalar incoming value becomes one new entry after all of them |
| PhpArrays.MergeFrom | src/HttpKernel/KernelConfiguration.php:68-71 | merging the n remaining entries adds at most n entries and removes none |
| PhpArrays.MergeFromKeepsOrder | src/HttpKernel/KernelConfiguration.php:68-71 | merging never removes or reorders the keys already present |
| PhpArrays.MergeFromStringKeys | src/HttpKernel/KernelConfiguration.php:68-71 | the string keys of the result are exactly those of either side |
| PhpArrays.MergeFromUntouched | src/HttpKernel/KernelConfiguration.php:68-71 | a string key that the incoming array does not carry keeps its value |
| PhpArrays.MergeFromStringKey | src/HttpKernel/KernelConfiguration.php:68-71 | a string key new to the target takes the incoming value; one already present gets the old and new values combined |
| PhpArrays.MergeFromList | tests/PHPUnit/GlobalsAnnotations.php:42 | merging a list appends its values, in order, after the target's values, under the keys from the target's next free index onwards |
| PhpArrays.MergeFromNewKeys | src/HttpKernel/KernelConfiguration.php:68-71 | merging string keys that are all new adds the entries unchanged at the end |
| PhpArrays.MergeRecursiveLookup | src/HttpKernel/KernelConfiguration.php:68-71 | under every string key, `array_merge_recursive($a, $b)` holds the value of the one side that has the key, or both values combined |
| PhpArrays.CombineScalars | src/HttpKernel/KernelConfiguration.php:68-71 | two colliding scalars become the list `[first, second]`; the later one does not overwrite the earlier |
| PhpArrays.MergeRecursive | src/HttpKernel/KernelConfiguration.php:68-71 | `array_merge_recursive($a, $b)` is well-formed and its string keys are exactly those of either side |
| PhpArrays.MergeRecursiveIntKeys | src/HttpKernel/KernelConfiguration.php:68-71 | the integer-keyed entries of `array_merge_recursive($a, $b)` hold the integer-keyed values of `$a`, then those of `$b`, in order, renumbered 0, 1, … |
| PhpArrays.MergeFromIntEntries | src/HttpKernel/KernelConfiguration.php:68-71 | merging puts the incoming integer-keyed values after the target's, in order, and numbers them on from the target's |
| PhpArrays.StepIntEntries | src/HttpKernel/KernelConfiguration.php:68-71 | one merged entry with an integer key adds its value at the end of the target's numbered list; a string-keyed one leaves that list alone |
| PhpArrays.NextIndexAppended | src/HttpKernel/KernelConfiguration.php:68-71 | after `$a[] = $v` the next free index is one more |
| PhpArrays.PutIntEntries | src/HttpKernel/KernelConfiguration.php:68-71 | assigning a string key leaves the integer-keyed entries unchanged |
| PhpArrays.NextIndexIntEntries | src/HttpKernel/KernelConfiguration.php:68-71 | the next free index depends only on the integer-keyed entries |
| PhpArrays.PutUnique | tests/PHPUnit/GlobalsAnnotations.php:52-55 | assigning a key keeps the array well-formed |
| Configuration.Default | src/HttpKernel/KernelConfiguration.php:9-29 | a fresh configuration has environment `test`, debug on, no bundles and no bundle configurations |
| Configuration.KernelConfiguration.WithEnvironment | src/HttpKernel/KernelConfiguration.php:31-37 | the copy has the new environment and every other field of the receiver |
| Configuration.KernelConfiguration.WithDebug | src/HttpKernel/KernelConfiguration.php:39-45 | the copy has the new debug flag and every other field of the receiver |
| Configuration.KernelConfiguration.WithBundle | src/HttpKernel/KernelConfiguration.php:47-53 | the copy has the bundle appended at the end and every other field of the receiver |
| Configuration.KernelConfiguration.WithBundles | src/HttpKernel/KernelConfiguration.php:58-63 | folding `withBundle` over a list appends the whole list, in order, and changes nothing else |
| Configuration.WithBundlesConcat | src/HttpKernel/KernelConfiguration.php:58-63 | adding two lists one after the other is adding their concatenation |
| Configuration.WithBundleIsWithBundles | src/HttpKernel/KernelConfiguration.php:47-63 | `withBundles([b])` is `withBundle(b)` |
| Configuration.KernelConfiguration.WithBundleConfiguration | src/HttpKernel/KernelConfiguration.php:65-74 | the copy keeps the other fields; a new extension name goes after the existing names; the extension holds its earlier configuration (or `[]`) merged recursively with the new one; other extensions are untouched |
| Configuration.WithBundleConfigurationValid | src/HttpKernel/KernelConfiguration.php:65-74 | bundle configurations stay a well-formed table from extension names to arrays |
| Configuration.NewExtensionStoredAsGiven | src/HttpKernel/KernelConfiguration.php:65-74 | the first configuration of an extension, when all its keys are strings, is stored exactly as given, after the existing extension names |
| Configuration.ConfigureTwice | src/HttpKernel/KernelConfiguration.php:65-74 | configuring an extension twice leaves each key holding the first value, the second, or both combined |
| Configuration.ScalarsCollideIntoList | src/HttpKernel/KernelConfiguration.php:65-74 | configuring one key twice with scalars stores the list `[first, second]` |
| Configuration.KernelConfiguration.Serialized | src/HttpKernel/KernelConfiguration.php:78-85 | the serialised tuple holds the environment, the debug flag, the bundle configurations and, for each bundle in order, only its class name |
| Configuration.KernelConfiguration.GetHash | src/HttpKernel/KernelConfiguration.php:76-86 | with an injective digest, a configuration with the same hash has the same serialised tuple |
| Configuration.SameSettingsSameHash | src/HttpKernel/KernelConfiguration.php:76-86 | equal environment, debug flag, bundle class names and bundle configurations give equal hashes |
| Configuration.BundleInstancesDoNotMatter | src/HttpKernel/KernelConfiguration.php:81-83 | adding different bundle instances of the same classes gives equal hashes |
| Configuration.HashIdentifiesSettings | src/HttpKernel/KernelConfiguration.php:76-86 | with an injective digest, two hashes are equal if and only if the environments, debug flags, bundle class names and bundle configurations are |
| Configuration.DifferentBundleListsDifferentHash | src/HttpKernel/KernelConfiguration.php:76-86 | with an injective digest, one bundle more gives a different hash |
| HttpKernel.TestKernel.constructor | src/HttpKernel/TestKernel.php:16-21 | the kernel takes its environment and debug flag from the configuration, keeps the configuration, and starts unbooted |
| HttpKernel.TestKernel.RegisterBundles | src/HttpKernel/TestKernel.php:26-29 | the registered bundles are exactly the configuration's bundles, in order |
| HttpKernel.TestKernel.RegisterContainerConfiguration | src/HttpKernel/TestKernel.php:34-37 | loading the container configuration changes nothing |
| HttpKernel.TestKernel.Boot | src/HttpKernel/KernelBuilder.php:36 | after booting, the kernel is booted |
| HttpKernel.TestKernel.Shutdown | src/PHPUnit/TestKernel.php:78 | after shutting down, the kernel is not booted |
| Builder.GuardKernelClass | src/HttpKernel/KernelBuilder.php:106-115 | a class passes exactly when it is the test kernel or descends from it; an unknown class fails with ClassNotFound before the ancestry check; a known unrelated class fails with KernelNotSupported |
| Builder.KernelBuilder.constructor | src/HttpKernel/KernelBuilder.php:16-26 | a new builder has the test kernel class and the default configuration |
| Builder.KernelBuilder.CreateKernel | src/HttpKernel/KernelBuilder.php:28-31 | a new, unbooted kernel of the stored class over the current configuration |
| Builder.KernelBuilder.BootKernel | src/HttpKernel/KernelBuilder.php:33-39 | the kernel `createKernel` would give, booted |
| Builder.KernelBuilder.WithEnvironment | src/HttpKernel/KernelBuilder.php:41-46 | the configuration is replaced by its `withEnvironment` copy and the kernel class is kept |
| Builder.KernelBuilder.WithDebug | src/HttpKernel/KernelBuilder.php:48-53 | the configuration is replaced by its `withDebug` copy and the kernel class is kept |
| Builder.KernelBuilder.WithBundles | src/HttpKernel/KernelBuilder.php:55-60 | the bundles are appended to the configuration in order and the kernel class is kept |
| Builder.KernelBuilder.WithBundle | src/HttpKernel/KernelBuilder.php:62-67 | the configuration is replaced by its `withBundle` copy and the kernel class is kept |
| Builder.KernelBuilder.WithBundleConfiguration | src/HttpKernel/KernelBuilder.php:69-74 | the configuration is replaced by its `withBundleConfiguration` copy and the kernel class is kept |
| Builder.KernelBuilder.WithPublicService | src/HttpKernel/KernelBuilder.php:76-81 | the configuration is replaced by the setter's result and the kernel class is kept |
| Builder.KernelBuilder.WithPublicServices | src/HttpKernel/KernelBuilder.php:83-88 | the configuration is replaced by the setter's result and the kernel class is kept |
| Builder.KernelBuilder.WithTempDir | src/HttpKernel/KernelBuilder.php:90-95 | the configuration is replaced by the setter's result and the kernel class is kept |
| Builder.KernelBuilder.WithKernelClass | src/HttpKernel/KernelBuilder.php:97-104 | the guard's verdict is returned; the class is stored only when it passes; the configuration never changes; a supported class stays supported |
| PhpUnitTestKernel.Coalesce | src/PHPUnit/TestKernel.php:64-66 | `$a ?? $b ?? ... ?? $default` is the first present candidate, or the default when none is present |
| PhpUnitTestKernel.ToBool | src/PHPUnit/TestKernel.php:66 | PHP's `(bool)` cast: `null`, `false`, `0`, `""` and `"0"` are false, everything else true |
| PhpUnitTestKernel.GetKernelClass | src/PHPUnit/TestKernel.php:32-35 | `KERNEL_CLASS` from `$_ENV`, else from `$_SERVER`, else the test kernel |
| PhpUnitTestKernel.ResolveKernelClass | src/PHPUnit/TestKernel.php:64 | the `kernel_class` option when present, else `getKernelClass()` |
| PhpUnitTestKernel.ResolveEnvironment | src/PHPUnit/TestKernel.php:65 | the `environment` option, else `APP_ENV` from `$_ENV`, else from `$_SERVER`, else `test` |
| PhpUnitTestKernel.ResolveDebug | src/PHPUnit/TestKernel.php:66 | the bool cast of the `debug` option, else of `APP_DEBUG` from `$_ENV`, else from `$_SERVER`, else true; `"0"` and `""` disable debug |
| PhpUnitTestKernel.OptionsOverrideGlobals | src/PHPUnit/TestKernel.php:64-66 | given options win over any globals |
| PhpUnitTestKernel.DefaultsWithoutOptionsOrGlobals | src/PHPUnit/TestKernel.php:64-66 | with no options and no globals: environment `test`, debug on, the test kernel class |
| PhpUnitTestKernel.KernelSlot.ResetKernel | src/PHPUnit/TestKernel.php:27-30 | the slot is emptied |
| PhpUnitTestKernel.KernelSlot.EnsureKernelShutdown | src/PHPUnit/TestKernel.php:74-83 | a stored kernel is shut down and stays stored; an empty slot stays empty |
| PhpUnitTestKernel.TestKernelCase.CreateKernelBuilder | src/PHPUnit/TestKernel.php:61-69 | a fresh builder with the resolved kernel class, environment and debug flag over the default configuration, or the guard's error |
| PhpUnitTestKernel.TestKernelCase.CreateKernel | src/PHPUnit/TestKernel.php:56-59 | a fresh unbooted kernel with the resolved class, environment and debug flag, or the guard's error; the slot is not touched |
| PhpUnitTestKernel.TestKernelCase.BootKernel | src/PHPUnit/TestKernel.php:37-42 | the stored kernel is shut down first; a fresh booted kernel with the resolved settings is stored and returned; on a guard error the old kernel stays stored |
| ConfigurableKernel.GlobalVariable | src/PHPUnit/ConfigurableKernel.php:29 | `$_ENV[$name] ?? $_SERVER[$name] ?? null`: present when either map has the name; the `$_ENV` value when it has one, otherwise the `$_SERVER` value |
| ConfigurableKernel.InitialConfiguration | src/PHPUnit/ConfigurableKernel.php:29-35 | the configuration set up from the globals is well-formed and has no bundles or bundle configurations |
| ConfigurableKernel.ApplyOptions | src/PHPUnit/ConfigurableKernel.php:40-46 | a present environment option and a non-null debug option override the builder's values; absent options leave them; bundles are kept |
| ConfigurableKernel.ConfigurableAgreesWithTestKernel | src/PHPUnit/ConfigurableKernel.php:24-53 | without `given*` calls, the configuration equals the one the plain trait resolves from the same options and globals |
| ConfigurableKernel.InitialConfigurationWithoutGlobals | src/PHPUnit/ConfigurableKernel.php:24-36 | without `APP_ENV` and `APP_DEBUG` the builder keeps the default configuration |
| ConfigurableKernel.StripBackslashes | src/PHPUnit/ConfigurableKernel.php:60 | the result has no backslash and every other character as often as the input; a string without backslashes is unchanged |
| ConfigurableKernel.StripBackslashesConcat | src/PHPUnit/ConfigurableKernel.php:60 | stripping a concatenation is the concatenation of the stripped parts, so the kept characters stay in order |
| ConfigurableKernel.StripBackslashesChar | src/PHPUnit/ConfigurableKernel.php:60 | a single character is dropped exactly when it is a backslash; with the concatenation rule this fixes the whole result |
| ConfigurableKernel.GetTestNamespace | src/PHPUnit/ConfigurableKernel.php:58-61 | the test namespace contains no backslash and keeps every other character of the class name; it is `StripBackslashes` of the class name, so order is kept too |
| ConfigurableKernel.ConfigurableKernelCase.InitializeKernelBuilder | src/PHPUnit/ConfigurableKernel.php:24-36 | a fresh builder with the globals' kernel class, `APP_ENV` and `APP_DEBUG` applied; a rejected class leaves it at the defaults and reports the error |
| ConfigurableKernel.ConfigurableKernelCase.CreateKernelBuilder | src/PHPUnit/ConfigurableKernel.php:38-53 | the options are applied to the shared builder, the kernel class last; a rejected class keeps the earlier changes and the old class |
| ConfigurableKernel.ConfigurableKernelCase.CreateKernel | src/PHPUnit/TestKernel.php:56-59 | the options are applied to the shared builder; a fresh unbooted kernel, or the guard's error; its class is the `kernel_class` option, else the builder's earlier class; its environment and debug flag are the options', else the builder's earlier ones |
| ConfigurableKernel.ConfigurableKernelCase.BootKernel | src/PHPUnit/TestKernel.php:37-42 | the stored kernel is shut down, the options applied to the shared builder, and the booted kernel stored, which locks configuration; its class, environment and debug flag are the options', else the builder's earlier ones |
| ConfigurableKernel.ConfigurableKernelCase.EnsureKernelNotBooted | src/PHPUnit/ConfigurableKernel.php:156-161 | fails with a logic error exactly when a kernel is stored in the slot |
| ConfigurableKernel.ConfigurableKernelCase.GivenEnvironment | src/PHPUnit/ConfigurableKernel.php:63-70 | locked: logic error, builder unchanged; otherwise the builder's `withEnvironment` |
| ConfigurableKernel.ConfigurableKernelCase.GivenDebugIsEnabled | src/PHPUnit/ConfigurableKernel.php:72-79 | locked: logic error, builder unchanged; otherwise `withDebug(true)` |
| ConfigurableKernel.ConfigurableKernelCase.GivenDebugIsDisabled | src/PHPUnit/ConfigurableKernel.php:81-88 | locked: logic error, builder unchanged; otherwise `withDebug(false)` |
| ConfigurableKernel.ConfigurableKernelCase.GivenKernel | src/PHPUnit/ConfigurableKernel.php:90-97 | locked: logic error; otherwise the builder's class check, storing the class only when it passes; the configuration never changes |
| ConfigurableKernel.ConfigurableKernelCase.GivenBundleConfiguration | src/PHPUnit/ConfigurableKernel.php:99-106 | locked: logic error, builder unchanged; otherwise the builder's `withBundleConfiguration` |
| ConfigurableKernel.ConfigurableKernelCase.GivenPublicServiceId | src/PHPUnit/ConfigurableKernel.php:108-115 | locked: logic error, builder unchanged; otherwise the builder's `withPublicService` |
| ConfigurableKernel.ConfigurableKernelCase.GivenPublicServiceIds | src/PHPUnit/ConfigurableKernel.php:117-124 | locked: logic error, builder unchanged; otherwise the builder's `withPublicServices` |
| ConfigurableKernel.ConfigurableKernelCase.GivenBundlesAreEnabled | src/PHPUnit/ConfigurableKernel.php:129-136 | locked: logic error, builder unchanged; otherwise the bundles are appended in order |
| ConfigurableKernel.ConfigurableKernelCase.GivenBundleIsEnabled | src/PHPUnit/ConfigurableKernel.php:138-145 | locked: logic error, builder unchanged; otherwise the builder's `withBundle` |
| ConfigurableKernel.ConfigurableKernelCase.GivenTempDir | src/PHPUnit/ConfigurableKernel.php:147-154 | locked: logic error, builder unchanged; otherwise the builder's `withTempDir` |
| ConfigurableKernelTest.ItConfiguresTheKernelEnvironment | tests/PHPUnit/ConfigurableKernelTest.php:24-31 | after `givenEnvironment('foo')` the booted kernel's environment is `foo` |
| ConfigurableKernelTest.ItSetsTheKernelDebugFlag | tests/PHPUnit/ConfigurableKernelTest.php:33-49 | after enabling or disabling debug the booted kernel's debug flag is that choice |
| ConfigurableKernelTest.ItConfiguresTheKernelClass | tests/PHPUnit/ConfigurableKernelTest.php:51-58 | after `givenKernel` with a supported class the booted kernel is of that class |
| ConfigurableKernelTest.OptionsTakePrecedence | tests/PHPUnit/ConfigurableKernelTest.php:60-74 | boot options override earlier `given*` calls for class, environment and debug flag |
| ConfigurableKernelTest.EnvironmentVariablesAreRead | tests/PHPUnit/ConfigurableKernelTest.php:76-88 | without `given*` calls, `$_ENV` decides class, environment and debug flag |
| ConfigurableKernelTest.ServerVariablesAreRead | tests/PHPUnit/ConfigurableKernelTest.php:90-102 | without `given*` calls or `$_ENV` entries, `$_SERVER` decides them |
| ConfigurableKernelTest.GlobalsAreOverriddenByCustomConfiguration | tests/PHPUnit/ConfigurableKernelTest.php:104-138 | `given*` calls after initialisation win over whatever the globals say |
| ConfigurableKernelTest.ItEnablesABundle | tests/PHPUnit/ConfigurableKernelTest.php:152-162 | an enabled bundle is the one bundle the booted kernel registers |
| ConfigurableKernelTest.ItEnablesBundles | tests/PHPUnit/ConfigurableKernelTest.php:140-150 | enabled bundles are exactly the bundles the booted kernel registers |
| ConfigurableKernelTest.NothingCanBeChangedOnceBooted | tests/PHPUnit/ConfigurableKernelTest.php:202-290 | once a kernel is booted, each of the ten `given*` calls fails with a logic error |
| GlobalsAnnotations.StringValues | tests/PHPUnit/GlobalsAnnotations.php:50 | the texts of a list of annotations, all of them and in order |
| GlobalsAnnotations.StringValuesConcat | tests/PHPUnit/GlobalsAnnotations.php:42 | the texts of two joined lists are the texts of the first followed by those of the second |
| GlobalsAnnotations.FilterGroups | tests/PHPUnit/GlobalsAnnotations.php:41-47 | only the `env` and `server` groups remain, each with its value |
| GlobalsAnnotations.FirstIndexOf | tests/PHPUnit/GlobalsAnnotations.php:51 | `strpos`: absent exactly when the character does not occur, otherwise its first position |
| GlobalsAnnotations.ParseAnnotation | tests/PHPUnit/GlobalsAnnotations.php:51-55 | a text without `=`, or starting with `=`, is a name with an empty value; otherwise the name is the non-empty part before the first `=` and the value the rest |
| GlobalsAnnotations.ParseLines | tests/PHPUnit/GlobalsAnnotations.php:50-59 | the parsed group is a well-formed table from names to string values |
| GlobalsAnnotations.ParseGroups | tests/PHPUnit/GlobalsAnnotations.php:49-60 | every kept group is replaced by its parsed table, keys and order unchanged |
| GlobalsAnnotations.GetGlobalVariableAnnotations | tests/PHPUnit/GlobalsAnnotations.php:37-61 | the result has no group other than `env` and `server` |
| GlobalsAnnotations.MergedGroupLines | tests/PHPUnit/GlobalsAnnotations.php:42 | the merged texts of an annotation are the class texts followed by the method texts |
| GlobalsAnnotations.GlobalVariableGroups | tests/PHPUnit/GlobalsAnnotations.php:37-61 | `env` and `server`, if either level has them, hold the table parsed from class then method texts; every other name is absent |
| GlobalsAnnotations.ParseLinesLastWins | tests/PHPUnit/GlobalsAnnotations.php:50-59 | the last text for a name decides its value |
| GlobalsAnnotations.ParseLinesNames | tests/PHPUnit/GlobalsAnnotations.php:50-59 | a name is in the parsed table exactly when some text carries it |
| GlobalsAnnotations.ParsedGroupLines | tests/PHPUnit/GlobalsAnnotations.php:37-61 | the parsed `env` or `server` table is the parse of the class texts followed by the method texts |
| GlobalsAnnotations.ConcatLastWins | tests/PHPUnit/GlobalsAnnotations.php:50-59 | in texts parsed after others, the last text for a name wins over everything before it |
| GlobalsAnnotations.MethodAnnotationWins | tests/PHPUnit/GlobalsAnnotations.php:42 | a method annotation overrides class annotations of the same name |
| GlobalsAnnotations.ClassAnnotationKept | tests/PHPUnit/GlobalsAnnotations.php:42 | a class annotation whose name is not reused later keeps its value |
| GlobalsAnnotations.AsMap | tests/PHPUnit/GlobalsAnnotations.php:26-33 | every variable the table writes is named by one of the table's keys |
| GlobalsAnnotations.AsMapOfTable | tests/PHPUnit/GlobalsAnnotations.php:26-33 | the map written from a parsed table holds exactly its names, each with its value |
| GlobalsAnnotations.AsMapStep | tests/PHPUnit/GlobalsAnnotations.php:26-28 | writing one more entry of a table is one map assignment |
| GlobalsAnnotations.WriteTable | tests/PHPUnit/GlobalsAnnotations.php:26-28 | assigning each name of a table its value, in table order, over the existing variables gives the variables with the table written over them |
| GlobalsAnnotations.WriteGlobalVariables | tests/PHPUnit/GlobalsAnnotations.php:25-34 | `$_ENV` gets the `env` table written over it and `$_SERVER` the `server` table; other variables keep their values; an absent group writes nothing |
| GlobalsAnnotations.CheckRequirements | tests/PHPUnit/GlobalsAnnotations.php:19-35 | the globals end up as before, overwritten by the parsed `env` and `server` annotations |

## Left out

- Symfony's `Kernel`: container compilation, bundle indexing, `getContainer`, cache and log directories. Boot and shutdown are a flag on the kernel.
- `sha1` and `serialize`: `GetHash` takes the digest function as a parameter. Results about different hashes assume it is injective.
- The namespace argument of the `KernelBuilder` constructor and `KernelConfiguration::DEFAULT_NAMESPACE`: `KernelConfiguration.php` defines neither. So `getTestNamespace` is modelled, but its result is not passed on.
- The semantics of `withPublicServiceId(s)` and `withTempDir`: they are not defined in `KernelConfiguration.php`. The builder applies them as opaque setters.
- The exception classes only format messages. They are the two `BuilderError` constructors and `LogicError`.
- The container `reset()` after shutdown in `ensureKernelShutdown`: it belongs to the external container.
- PHPUnit's `@before`/`@after` scheduling and `getAnnotations()`. The annotations are an input, and the methods that PHPUnit would call are called by the caller.
- The fluent `return $this` of builder and `given*` methods: the methods mutate the object and return only their outcome.
- The `$options` array is a typed record. `environment` and `kernel_class` are strings there, so the `(string)` casts are not modelled.
- PHP arrays: floats, objects and references are not modelled. Numeric-string keys are assumed to be integer keys already. The next free integer index follows PHP before 8.3 and ignores deleted keys.
- GlobalsAnnotations.GetGlobalVariableAnnotations: annotation names are strings. `in_array`'s loose comparison (where, before PHP 8, an integer key 0 equals `'env'`) is not modelled.
- GlobalsAnnotations.ParseLines: an annotation name that is a numeric string would become an integer key in PHP. Here it stays a string key.
- Numeric extension names: PHP stores `$bundleConfigurations['123']` under the integer key 123. `WithBundleConfiguration` always uses a string key.
- Integer key overflow: PHP refuses to append past `PHP_INT_MAX`. `NextIndex` is an unbounded integer, so appending never fails.
- GlobalsAnnotations.AsMap skips entries that are not string-to-string. `AsMapOfTable` shows a parsed table holds no such entries.
