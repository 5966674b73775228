# PutPropertySlot, modelled in Dafny

JavaScriptCore fills in a `PutPropertySlot` while it performs one property write
(`obj.x = v`). The slot records how the write happened: it stored into an
existing property, it added a new property, it called a cacheable setter, it went
through a custom value or custom accessor function, or it was left unclassified
(`Uncachable`). The inline-cache machinery then asks the slot's predicates
(`isCacheablePut`, `isCacheableSetter`, `isCacheableCustom`, `isCustomAccessor`)
whether a fast path may be generated for that write site. Caching can be switched
off (`disableCaching`) and the write can be marked as having passed through an
opaque object (`setIsTaintedByOpaqueObject`).

The project has three modules:

- `SlotState` (`slot_state.dfy`): the enumerations (`SlotType`, `SlotContext`,
  `CacheabilityType`), opaque handles for engine values, objects and put
  functions, a value `Slot` holding every field, the datatype `Op` naming each
  mutating member function, `Step` (the effect of one call) and `Run` (the effect
  of a sequence of calls), and induction lemmas that say what any sequence of
  calls leaves in each field.
- `JSC` (`put_property_slot.dfy`): the class `PutPropertySlot` with the header's
  fields, its mutators as `modifies this` methods and its const accessors as
  functions and predicates over the fields. Two ghost members, `start` (the
  fields as constructed) and `trace` (every mutating call so far), are tied to
  the fields by `Valid()`: the fields are `Run(start, trace)`. Lemmas about a
  valid slot state what its accessors return in terms of that history.
- `Scenarios` (`scenarios.dfy`): short client programs that drive a slot and
  state what a caller may rely on afterwards.

The model follows the header as written:

- A second classifying call overwrites the first; nothing forbids it.
- The setters accept any offset; `cachedOffset()` returns whatever offset was
  stored last, also when the current type is a custom one
  (`Scenarios.SecondClassificationOverwrites`). It is `invalidOffset` while no
  offset has been stored, and also after a store of `invalidOffset` itself, which
  the setters accept.
- `setThisValue` and `setStrictMode` exist, so `thisValue` and strict mode may
  change after construction; context and the initialization flag have no setter
  and never change.
- The `isCacheable*` predicates and `isCustomAccessor` do not look at the taint
  flag: a tainted slot can still report a cacheable put
  (`Scenarios.TaintedPutStaysCacheable`). Any rule that taint suppresses caching
  belongs to the slot's consumers.
- `customSetter()` asserts `isCacheableCustom()`, so after `disableCaching` the
  stored function can no longer be read through it
  (`Scenarios.CustomAccessorThenDisable` reads it before disabling).

The query predicates (`IsCacheablePut`, `IsCacheableSetter`, `IsCacheableCustom`,
`IsCustomAccessor`, the private `IsCacheable`) are defined once, on the class
fields, with the header's bodies; each has its own row below, which names the
lemmas that state what it means over a slot's history.

## Model

Every source cell is a range of
`modules/javafx.web/src/main/native/Source/JavaScriptCore/runtime/PutPropertySlot.h`.

| member | source | states |
|---|---|---|
| JSC.PutPropertySlot.constructor | modules/javafx.web/src/main/native/Source/JavaScriptCore/runtime/PutPropertySlot.h:44-55 | a new slot is Uncachable with a null base, offset invalidOffset, not tainted, caching allowed, a null put function and the given thisValue, strict mode, context and initialization flag (defaults false, UnknownContext, false); no cacheable predicate holds |
| JSC.PutPropertySlot.SetExistingProperty | modules/javafx.web/src/main/native/Source/JavaScriptCore/runtime/PutPropertySlot.h:57-62 | sets exactly type ExistingProperty, base and offset; every other field is unchanged; afterwards isCacheablePut holds iff caching was allowed |
| JSC.PutPropertySlot.SetNewProperty | modules/javafx.web/src/main/native/Source/JavaScriptCore/runtime/PutPropertySlot.h:64-69 | sets exactly type NewProperty, base and offset; every other field is unchanged; afterwards isCacheablePut holds iff caching was allowed |
| JSC.PutPropertySlot.SetCustomValue | modules/javafx.web/src/main/native/Source/JavaScriptCore/runtime/PutPropertySlot.h:71-76 | sets exactly type CustomValue, base and put function; the offset is kept; isCacheableCustom holds iff caching was allowed and the function is non-null; isCustomAccessor is false |
| JSC.PutPropertySlot.SetCustomAccessor | modules/javafx.web/src/main/native/Source/JavaScriptCore/runtime/PutPropertySlot.h:78-83 | sets exactly type CustomAccessor, base and put function; the offset is kept; isCacheableCustom holds iff caching was allowed and the function is non-null; isCustomAccessor iff caching was allowed |
| JSC.PutPropertySlot.SetCacheableSetter | modules/javafx.web/src/main/native/Source/JavaScriptCore/runtime/PutPropertySlot.h:85-90 | sets exactly type SetterProperty, base and offset; every other field is unchanged; isCacheableSetter holds iff caching was allowed |
| JSC.PutPropertySlot.SetThisValue | modules/javafx.web/src/main/native/Source/JavaScriptCore/runtime/PutPropertySlot.h:92-95 | replaces thisValue and nothing else |
| JSC.PutPropertySlot.SetStrictMode | modules/javafx.web/src/main/native/Source/JavaScriptCore/runtime/PutPropertySlot.h:97-100 | replaces the strict-mode flag and nothing else |
| JSC.PutPropertySlot.CustomSetter | modules/javafx.web/src/main/native/Source/JavaScriptCore/runtime/PutPropertySlot.h:102-106 | callable only when isCacheableCustom holds (the header's assertion); the handle returned is then non-null |
| JSC.PutPropertySlot.SetIsTaintedByOpaqueObject | modules/javafx.web/src/main/native/Source/JavaScriptCore/runtime/PutPropertySlot.h:119-120 | sets the taint flag and nothing else; none of the four cacheable predicates changes |
| JSC.PutPropertySlot.DisableCaching | modules/javafx.web/src/main/native/Source/JavaScriptCore/runtime/PutPropertySlot.h:127-130 | sets cacheability to CachingDisallowed and nothing else; afterwards all four cacheable predicates are false |
| JSC.PutPropertySlot.IsCacheablePut | modules/javafx.web/src/main/native/Source/JavaScriptCore/runtime/PutPropertySlot.h:114-114 | defined as the header's body: caching allowed and type NewProperty or ExistingProperty; its meaning over a slot's history is stated by FastPathsAreExclusive, CachingAllowedUntilDisabled, UnclassifiedSlotCachesNothing and TaintedPutStaysCacheable |
| JSC.PutPropertySlot.IsCacheableSetter | modules/javafx.web/src/main/native/Source/JavaScriptCore/runtime/PutPropertySlot.h:115-115 | defined as the header's body: caching allowed and type SetterProperty; stated by FastPathsAreExclusive, CachingAllowedUntilDisabled and UnclassifiedSlotCachesNothing |
| JSC.PutPropertySlot.IsCacheableCustom | modules/javafx.web/src/main/native/Source/JavaScriptCore/runtime/PutPropertySlot.h:116-116 | defined as the header's body: caching allowed, type CustomValue or CustomAccessor, and a non-null put function; stated by FastPathsAreExclusive, CachingAllowedUntilDisabled, UnclassifiedSlotCachesNothing and CustomSetterIsLastStored |
| JSC.PutPropertySlot.IsCustomAccessor | modules/javafx.web/src/main/native/Source/JavaScriptCore/runtime/PutPropertySlot.h:117-117 | defined as the header's body: caching allowed and type CustomAccessor, with no check of the put function; stated by FastPathsAreExclusive, CachingAllowedUntilDisabled and UnclassifiedSlotCachesNothing |
| JSC.PutPropertySlot.IsCacheable | modules/javafx.web/src/main/native/Source/JavaScriptCore/runtime/PutPropertySlot.h:133-133 | defined as the header's private body: cacheability is CachingAllowed; CachingAllowedUntilDisabled proves it holds iff disableCaching was never called |
| JSC.PutPropertySlot.CachedOffset | modules/javafx.web/src/main/native/Source/JavaScriptCore/runtime/PutPropertySlot.h:122-125 | returns the stored offset unchanged; CachedOffsetIsLastStored proves it is the offset of the last offset-storing call, or invalidOffset if there was none |
| SlotState.Step | modules/javafx.web/src/main/native/Source/JavaScriptCore/runtime/PutPropertySlot.h:57-130 | the effect of one mutating call on the fields, one case per setter with the header's assignments; the class methods are proved against it through Valid(), and the Run lemmas below state what it does to each field |
| SlotState.Run | modules/javafx.web/src/main/native/Source/JavaScriptCore/runtime/PutPropertySlot.h:57-130 | the fields after a sequence of calls, applied in order; RunKeepsContextAndInitialization, RunCacheability, RunTaint, RunTypeAndBase, RunOffset, RunPutFunction, RunThisValue, RunStrictMode and their "Keeps" variants state what it leaves in each of the ten fields |
| JSC.TypeAndBaseFollowLastClassification | modules/javafx.web/src/main/native/Source/JavaScriptCore/runtime/PutPropertySlot.h:108-110 | type() and base() are those recorded by the last of the five classifying setters called; if none was called, Uncachable and null |
| JSC.CachedOffsetIsLastStored | modules/javafx.web/src/main/native/Source/JavaScriptCore/runtime/PutPropertySlot.h:122-125 | cachedOffset() is the offset passed to the last setExistingProperty, setNewProperty or setCacheableSetter call; if none was called it is invalidOffset, even after custom writes |
| JSC.CustomSetterIsLastStored | modules/javafx.web/src/main/native/Source/JavaScriptCore/runtime/PutPropertySlot.h:102-106 | when customSetter() is legal, some setCustomValue or setCustomAccessor call happened and the result is the function given to the last of them |
| JSC.CachingAllowedUntilDisabled | modules/javafx.web/src/main/native/Source/JavaScriptCore/runtime/PutPropertySlot.h:127-133 | isCacheable() holds iff disableCaching was never called; once it was, all four cacheable predicates are false whatever setters came before or after |
| JSC.TaintIsSticky | modules/javafx.web/src/main/native/Source/JavaScriptCore/runtime/PutPropertySlot.h:119-120 | isTaintedByOpaqueObject() holds iff setIsTaintedByOpaqueObject was ever called: it never reverts to false |
| JSC.ContextAndInitializationAreFixed | modules/javafx.web/src/main/native/Source/JavaScriptCore/runtime/PutPropertySlot.h:109-118 | context() and isInitialization() keep the values given to the constructor, whatever calls follow |
| JSC.ThisValueAndStrictModeFollowLastSet | modules/javafx.web/src/main/native/Source/JavaScriptCore/runtime/PutPropertySlot.h:92-113 | thisValue() and isStrictMode() hold the value given to the last setThisValue and setStrictMode call respectively, or the constructor's value if there was none |
| JSC.UnclassifiedSlotCachesNothing | modules/javafx.web/src/main/native/Source/JavaScriptCore/runtime/PutPropertySlot.h:114-117 | with no classifying call (only thisValue, strict-mode, taint or disable calls), the slot is Uncachable, cachedOffset() is invalidOffset and no cacheable predicate holds |
| JSC.FastPathsAreExclusive | modules/javafx.web/src/main/native/Source/JavaScriptCore/runtime/PutPropertySlot.h:114-117 | at most one of isCacheablePut, isCacheableSetter, isCacheableCustom holds; isCustomAccessor excludes the first two and, with a non-null function, implies isCacheableCustom |
| SlotState.RunKeepsContextAndInitialization | modules/javafx.web/src/main/native/Source/JavaScriptCore/runtime/PutPropertySlot.h:57-130 | no sequence of mutating calls changes the context or the initialization flag |
| SlotState.RunCacheability | modules/javafx.web/src/main/native/Source/JavaScriptCore/runtime/PutPropertySlot.h:127-130 | after any sequence of calls, caching is disallowed iff it was before or the sequence contains disableCaching |
| SlotState.RunTaint | modules/javafx.web/src/main/native/Source/JavaScriptCore/runtime/PutPropertySlot.h:119-120 | after any sequence of calls, the slot is tainted iff it was before or the sequence contains setIsTaintedByOpaqueObject |
| SlotState.RunKeepsTypeAndBase | modules/javafx.web/src/main/native/Source/JavaScriptCore/runtime/PutPropertySlot.h:57-90 | a sequence of calls with no classifying call leaves type and base unchanged |
| SlotState.RunTypeAndBase | modules/javafx.web/src/main/native/Source/JavaScriptCore/runtime/PutPropertySlot.h:57-90 | after any sequence of calls, type and base are those given to the last classifying call (the later call overwrites the earlier) |
| SlotState.RunKeepsOffset | modules/javafx.web/src/main/native/Source/JavaScriptCore/runtime/PutPropertySlot.h:71-83 | a sequence of calls with no setExistingProperty, setNewProperty or setCacheableSetter leaves the offset unchanged; custom setters do not touch it |
| SlotState.RunOffset | modules/javafx.web/src/main/native/Source/JavaScriptCore/runtime/PutPropertySlot.h:57-90 | after any sequence of calls, the offset is the one given to the last offset-storing call, unchecked |
| SlotState.RunKeepsPutFunction | modules/javafx.web/src/main/native/Source/JavaScriptCore/runtime/PutPropertySlot.h:57-69 | a sequence of calls with no setCustomValue or setCustomAccessor leaves the put function unchanged |
| SlotState.RunPutFunction | modules/javafx.web/src/main/native/Source/JavaScriptCore/runtime/PutPropertySlot.h:71-83 | after any sequence of calls, the put function is the one given to the last custom setter call |
| SlotState.RunKeepsThisValue | modules/javafx.web/src/main/native/Source/JavaScriptCore/runtime/PutPropertySlot.h:92-95 | a sequence of calls with no setThisValue leaves thisValue unchanged |
| SlotState.RunThisValue | modules/javafx.web/src/main/native/Source/JavaScriptCore/runtime/PutPropertySlot.h:92-95 | after any sequence of calls, thisValue is the one given to the last setThisValue call |
| SlotState.RunKeepsStrictMode | modules/javafx.web/src/main/native/Source/JavaScriptCore/runtime/PutPropertySlot.h:97-100 | a sequence of calls with no setStrictMode leaves the strict-mode flag unchanged |
| SlotState.RunStrictMode | modules/javafx.web/src/main/native/Source/JavaScriptCore/runtime/PutPropertySlot.h:97-100 | after any sequence of calls, the strict-mode flag is the one given to the last setStrictMode call |
| SlotState.DisableCachingIdempotent | modules/javafx.web/src/main/native/Source/JavaScriptCore/runtime/PutPropertySlot.h:127-130 | disabling caching twice leaves the same fields as disabling it once |
| Scenarios.ExistingPropertyWrite | modules/javafx.web/src/main/native/Source/JavaScriptCore/runtime/PutPropertySlot.h:57-62 | a strict by-id write that stores into an existing property at offset 3 reports ExistingProperty, offset 3, a cacheable put and strict mode |
| Scenarios.CustomAccessorThenDisable | modules/javafx.web/src/main/native/Source/JavaScriptCore/runtime/PutPropertySlot.h:78-130 | a custom accessor write yields its function through customSetter(); after disableCaching the type is still CustomAccessor but neither isCacheableCustom nor isCustomAccessor holds |
| Scenarios.NoClassification | modules/javafx.web/src/main/native/Source/JavaScriptCore/runtime/PutPropertySlot.h:44-55 | a slot that is only tainted stays Uncachable with offset invalidOffset and offers no fast path |
| Scenarios.SecondClassificationOverwrites | modules/javafx.web/src/main/native/Source/JavaScriptCore/runtime/PutPropertySlot.h:57-76 | an existing-property record followed by a custom-value record leaves type CustomValue, the second base, and the stale offset 3 |
| Scenarios.TaintedPutStaysCacheable | modules/javafx.web/src/main/native/Source/JavaScriptCore/runtime/PutPropertySlot.h:114-120 | a tainted slot that records a new property still reports a cacheable put |
| Scenarios.DisableBeforeClassification | modules/javafx.web/src/main/native/Source/JavaScriptCore/runtime/PutPropertySlot.h:127-133 | disabling caching before three classifying calls still leaves every cacheable predicate false |

## Left out

- The representations of `JSValue`, `JSObject*` and `PropertyOffset`: values are
  opaque integers, objects are references to an empty class, offsets are
  unbounded integers with `invalidOffset` written as -1 (its value in JSC's
  PropertyOffset.h, which is not part of this model; only equality with it is used).
- `FunctionPtr` pointer tagging, `CustomAccessorPtrTag`, the JIT-operation
  attributes and the `PutValueFunc` to `CustomAccessorValueFunc` conversion: a put
  function is a nullable opaque handle, and the constructor's default put function
  is taken to be null.
- Bit-field packing and the `uint8_t` enum layout: no behavioural content.
- The debug-only nature of the `customSetter()` assertion: the model makes it a
  precondition, so an optimized build's unchecked read is not modelled.
- The trivial const accessors `type`, `context`, `base`, `thisValue`,
  `isStrictMode`, `isInitialization` and `isTaintedByOpaqueObject` are plain
  field reads with no contracts of their own; their behaviour over a slot's
  history is stated by TypeAndBaseFollowLastClassification,
  ContextAndInitializationAreFixed, ThisValueAndStrictModeFollowLastSet and
  TaintIsSticky.
- The generic put routine that calls these setters, the inline-cache code
  generator, structure transitions and garbage collection are not part of this
  model.
