/**
 * Short client programs that drive a PutPropertySlot the way the generic put
 * routine and the inline-cache code do, and what each may rely on afterwards.
 */
module Scenarios {
  import opened SlotState
  import opened JSC

  /** A strict by-id write that finds an existing property at offset 3 is a cacheable put. */
  method ExistingPropertyWrite(obj: JSObject, thisValue: JSValue)
    returns (t: SlotType, offset: int, cacheablePut: bool, strict: bool)
    ensures t == ExistingProperty && offset == 3 && cacheablePut && strict
  {
    var slot := new PutPropertySlot(thisValue, true, PutById);
    slot.SetExistingProperty(obj, 3);
    t, offset, cacheablePut, strict := slot.Type(), slot.CachedOffset(), slot.IsCacheablePut(), slot.IsStrictMode();
  }

  /**
   * A custom accessor write returns its function through customSetter() while
   * caching is allowed; after disableCaching the slot keeps its type but offers
   * no custom fast path, and customSetter() may no longer be called.
   */
  method CustomAccessorThenDisable(obj: JSObject, thisValue: JSValue, fn: PutValueFunc)
    returns (setter: PutValueFunc, t: SlotType, cacheableCustom: bool, customAccessor: bool)
    requires fn != NullFunction
    ensures setter == fn && t == CustomAccessor && !cacheableCustom && !customAccessor
  {
    var slot := new PutPropertySlot(thisValue);
    slot.SetCustomAccessor(obj, fn);
    setter := slot.CustomSetter();
    slot.DisableCaching();
    t, cacheableCustom, customAccessor := slot.Type(), slot.IsCacheableCustom(), slot.IsCustomAccessor();
  }

  /** With no classifying call the slot is Uncachable, has no offset and offers no fast path. */
  method NoClassification(thisValue: JSValue, isStrictMode: bool, context: SlotContext)
    returns (t: SlotType, offset: int, anyCacheable: bool)
    ensures t == Uncachable && offset == InvalidOffset && !anyCacheable
  {
    var slot := new PutPropertySlot(thisValue, isStrictMode, context);
    slot.SetIsTaintedByOpaqueObject();
    t, offset := slot.Type(), slot.CachedOffset();
    anyCacheable := slot.IsCacheablePut() || slot.IsCacheableSetter() || slot.IsCacheableCustom() || slot.IsCustomAccessor();
  }

  /**
   * A second classifying call overwrites the first; a custom write keeps the
   * offset of an earlier store, so cachedOffset() is not invalidOffset there.
   */
  method SecondClassificationOverwrites(first: JSObject, second: JSObject, thisValue: JSValue, fn: PutValueFunc)
    returns (t: SlotType, b: JSObject?, offset: int)
    ensures t == CustomValue && b == second && offset == 3
  {
    var slot := new PutPropertySlot(thisValue);
    slot.SetExistingProperty(first, 3);
    slot.SetCustomValue(second, fn);
    t, b, offset := slot.Type(), slot.Base(), slot.CachedOffset();
  }

  /** The taint flag does not by itself stop a put from being cacheable. */
  method TaintedPutStaysCacheable(obj: JSObject, thisValue: JSValue)
    returns (tainted: bool, cacheablePut: bool)
    ensures tainted && cacheablePut
  {
    var slot := new PutPropertySlot(thisValue);
    slot.SetIsTaintedByOpaqueObject();
    slot.SetNewProperty(obj, 0);
    tainted, cacheablePut := slot.IsTaintedByOpaqueObject(), slot.IsCacheablePut();
  }

  /** Once caching is disabled, no later classification makes the slot cacheable again. */
  method DisableBeforeClassification(obj: JSObject, thisValue: JSValue, fn: PutValueFunc)
    returns (anyCacheable: bool)
    ensures !anyCacheable
  {
    var slot := new PutPropertySlot(thisValue);
    slot.DisableCaching();
    slot.SetNewProperty(obj, 1);
    slot.SetCustomAccessor(obj, fn);
    slot.SetCacheableSetter(obj, 2);
    anyCacheable := slot.IsCacheablePut() || slot.IsCacheableSetter() || slot.IsCacheableCustom() || slot.IsCustomAccessor();
  }
}
