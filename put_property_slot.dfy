/**
 * JSC::PutPropertySlot: the record the engine fills in while it performs one
 * property write, and which the inline-cache machinery reads afterwards to
 * decide whether a fast path may be generated for that write site.
 */
module JSC {
  import opened SlotState

  class PutPropertySlot {
    var slotType: SlotType
    var base: JSObject?
    var thisValue: JSValue
    var offset: int
    var isStrictMode: bool
    var isInitialization: bool
    var isTaintedByOpaqueObject: bool
    var context: SlotContext
    var cacheability: CacheabilityType
    var putFunction: PutValueFunc

    /** The fields as the constructor left them. */
    ghost const start: Slot
    /** Every mutating call made on this slot since construction, in order. */
    ghost var trace: seq<Op>

    /** The current fields as one value. */
    ghost function State(): Slot
      reads this
    {
      Slot(slotType, base, thisValue, offset, isStrictMode, isInitialization,
           isTaintedByOpaqueObject, context, cacheability, putFunction)
    }

    /** The fields are what the recorded calls made of the constructed slot. */
    ghost predicate Valid()
      reads this
    {
      && start == Initial(start.thisValue, start.isStrictMode, start.context, start.isInitialization)
      && State() == Run(start, trace)
    }

    constructor (thisValue: JSValue, isStrictMode: bool := false,
                 context: SlotContext := UnknownContext, isInitialization: bool := false)
      ensures Valid() && trace == []
      ensures slotType == Uncachable && base == null && offset == InvalidOffset
      ensures this.thisValue == thisValue && this.isStrictMode == isStrictMode
      ensures this.context == context && this.isInitialization == isInitialization
      ensures !isTaintedByOpaqueObject && cacheability == CachingAllowed && putFunction == NullFunction
      ensures !IsCacheablePut() && !IsCacheableSetter() && !IsCacheableCustom() && !IsCustomAccessor()
    {
      slotType := Uncachable;
      base := null;
      this.thisValue := thisValue;
      offset := InvalidOffset;
      this.isStrictMode := isStrictMode;
      this.isInitialization := isInitialization;
      isTaintedByOpaqueObject := false;
      this.context := context;
      cacheability := CachingAllowed;
      putFunction := NullFunction;
      start := Initial(thisValue, isStrictMode, context, isInitialization);
      trace := [];
    }

    /** Record that the write stored into an existing property at `offset` of `base`. */
    method SetExistingProperty(base: JSObject?, offset: int)
      requires Valid()
      modifies this
      ensures Valid() && trace == old(trace) + [Op.SetExistingProperty(base, offset)]
      ensures State() == old(State()).(slotType := ExistingProperty, base := base, offset := offset)
      ensures IsCacheablePut() == old(IsCacheable())
    {
      slotType := ExistingProperty;
      this.base := base;
      this.offset := offset;
      RunAppend(start, trace, Op.SetExistingProperty(base, offset));
      trace := trace + [Op.SetExistingProperty(base, offset)];
    }

    /** Record that the write added a new property at `offset` of `base`. */
    method SetNewProperty(base: JSObject?, offset: int)
      requires Valid()
      modifies this
      ensures Valid() && trace == old(trace) + [Op.SetNewProperty(base, offset)]
      ensures State() == old(State()).(slotType := NewProperty, base := base, offset := offset)
      ensures IsCacheablePut() == old(IsCacheable())
    {
      slotType := NewProperty;
      this.base := base;
      this.offset := offset;
      RunAppend(start, trace, Op.SetNewProperty(base, offset));
      trace := trace + [Op.SetNewProperty(base, offset)];
    }

    /** Record that the write went through the custom value function `fn` of `base`. */
    method SetCustomValue(base: JSObject?, fn: PutValueFunc)
      requires Valid()
      modifies this
      ensures Valid() && trace == old(trace) + [Op.SetCustomValue(base, fn)]
      ensures State() == old(State()).(slotType := CustomValue, base := base, putFunction := fn)
      ensures IsCacheableCustom() == (old(IsCacheable()) && fn != NullFunction)
      ensures !IsCustomAccessor()
    {
      slotType := CustomValue;
      this.base := base;
      putFunction := fn;
      RunAppend(start, trace, Op.SetCustomValue(base, fn));
      trace := trace + [Op.SetCustomValue(base, fn)];
    }

    /** Record that the write went through the custom accessor function `fn` of `base`. */
    method SetCustomAccessor(base: JSObject?, fn: PutValueFunc)
      requires Valid()
      modifies this
      ensures Valid() && trace == old(trace) + [Op.SetCustomAccessor(base, fn)]
      ensures State() == old(State()).(slotType := CustomAccessor, base := base, putFunction := fn)
      ensures IsCacheableCustom() == (old(IsCacheable()) && fn != NullFunction)
      ensures IsCustomAccessor() == old(IsCacheable())
    {
      slotType := CustomAccessor;
      this.base := base;
      putFunction := fn;
      RunAppend(start, trace, Op.SetCustomAccessor(base, fn));
      trace := trace + [Op.SetCustomAccessor(base, fn)];
    }

    /** Record that the write called the setter stored at `offset` of `base`. */
    method SetCacheableSetter(base: JSObject?, offset: int)
      requires Valid()
      modifies this
      ensures Valid() && trace == old(trace) + [Op.SetCacheableSetter(base, offset)]
      ensures State() == old(State()).(slotType := SetterProperty, base := base, offset := offset)
      ensures IsCacheableSetter() == old(IsCacheable())
    {
      slotType := SetterProperty;
      this.base := base;
      this.offset := offset;
      RunAppend(start, trace, Op.SetCacheableSetter(base, offset));
      trace := trace + [Op.SetCacheableSetter(base, offset)];
    }

    /** Replace the value setters are invoked on; nothing else changes. */
    method SetThisValue(thisValue: JSValue)
      requires Valid()
      modifies this
      ensures Valid() && trace == old(trace) + [Op.SetThisValue(thisValue)]
      ensures State() == old(State()).(thisValue := thisValue)
    {
      this.thisValue := thisValue;
      RunAppend(start, trace, Op.SetThisValue(thisValue));
      trace := trace + [Op.SetThisValue(thisValue)];
    }

    /** Replace the strict-mode flag; nothing else changes. */
    method SetStrictMode(value: bool)
      requires Valid()
      modifies this
      ensures Valid() && trace == old(trace) + [Op.SetStrictMode(value)]
      ensures State() == old(State()).(isStrictMode := value)
    {
      isStrictMode := value;
      RunAppend(start, trace, Op.SetStrictMode(value));
      trace := trace + [Op.SetStrictMode(value)];
    }

    /**
     * The customSetter() accessor. Only legal while the slot is a cacheable
     * custom write, so the handle it returns is never null.
     */
    function CustomSetter(): (fn: PutValueFunc)
      reads this
      requires IsCacheableCustom()
      ensures fn != NullFunction
    {
      putFunction
    }

    function Type(): SlotType reads this { slotType }
    function Context(): SlotContext reads this { context }
    function Base(): JSObject? reads this { base }
    function ThisValue(): JSValue reads this { thisValue }
    predicate IsStrictMode() reads this { isStrictMode }

    /** A plain store (to an existing or a freshly added property) may be cached. */
    predicate IsCacheablePut()
      reads this
    {
      IsCacheable() && (slotType == NewProperty || slotType == ExistingProperty)
    }

    /** A call to a setter found at a known offset may be cached. */
    predicate IsCacheableSetter()
      reads this
    {
      IsCacheable() && slotType == SetterProperty
    }

    /** A call through a non-null custom put function may be cached. */
    predicate IsCacheableCustom()
      reads this
    {
      IsCacheable() && (slotType == CustomValue || slotType == CustomAccessor) && putFunction != NullFunction
    }

    /** The write hit a custom accessor; the put function is not consulted. */
    predicate IsCustomAccessor()
      reads this
    {
      IsCacheable() && slotType == CustomAccessor
    }

    predicate IsInitialization() reads this { isInitialization }
    predicate IsTaintedByOpaqueObject() reads this { isTaintedByOpaqueObject }

    /** Mark that the write passed through an opaque object; the flag is never cleared. */
    method SetIsTaintedByOpaqueObject()
      requires Valid()
      modifies this
      ensures Valid() && trace == old(trace) + [Op.SetIsTaintedByOpaqueObject]
      ensures State() == old(State()).(isTaintedByOpaqueObject := true)
      ensures IsCacheablePut() == old(IsCacheablePut()) && IsCacheableSetter() == old(IsCacheableSetter())
      ensures IsCacheableCustom() == old(IsCacheableCustom()) && IsCustomAccessor() == old(IsCustomAccessor())
    {
      isTaintedByOpaqueObject := true;
      RunAppend(start, trace, Op.SetIsTaintedByOpaqueObject);
      trace := trace + [Op.SetIsTaintedByOpaqueObject];
    }

    /** The offset last stored, whatever the current type. */
    function CachedOffset(): int reads this { offset }

    /** Forbid any inline cache for this write; no member allows caching again. */
    method DisableCaching()
      requires Valid()
      modifies this
      ensures Valid() && trace == old(trace) + [Op.DisableCaching]
      ensures State() == old(State()).(cacheability := CachingDisallowed)
      ensures !IsCacheablePut() && !IsCacheableSetter() && !IsCacheableCustom() && !IsCustomAccessor()
    {
      cacheability := CachingDisallowed;
      RunAppend(start, trace, Op.DisableCaching);
      trace := trace + [Op.DisableCaching];
    }

    /** The private isCacheable(): caching has not been disabled. */
    predicate IsCacheable()
      reads this
    {
      cacheability == CachingAllowed
    }
  }

  /** The type and base come from the last classifying call; with none, the slot is still Uncachable with a null base. */
  lemma TypeAndBaseFollowLastClassification(slot: PutPropertySlot)
    requires slot.Valid()
    ensures (forall i :: 0 <= i < |slot.trace| ==> !Classifies(slot.trace[i])) ==>
              slot.Type() == Uncachable && slot.Base() == null
    ensures forall i :: LastClassificationAt(slot.trace, i) ==>
              slot.Type() == ClassifiedType(slot.trace[i]) && slot.Base() == slot.trace[i].base
  {
    if forall i :: 0 <= i < |slot.trace| ==> !Classifies(slot.trace[i]) {
      RunKeepsTypeAndBase(slot.start, slot.trace);
    }
    forall i | LastClassificationAt(slot.trace, i)
      ensures slot.Type() == ClassifiedType(slot.trace[i]) && slot.Base() == slot.trace[i].base
    {
      RunTypeAndBase(slot.start, slot.trace, i);
    }
  }

  /** cachedOffset() is the offset last stored, or invalidOffset if none was stored. */
  lemma CachedOffsetIsLastStored(slot: PutPropertySlot)
    requires slot.Valid()
    ensures (forall i :: 0 <= i < |slot.trace| ==> !StoresOffset(slot.trace[i])) ==>
              slot.CachedOffset() == InvalidOffset
    ensures forall i :: LastOffsetStoreAt(slot.trace, i) ==> slot.CachedOffset() == slot.trace[i].offset
  {
    if forall i :: 0 <= i < |slot.trace| ==> !StoresOffset(slot.trace[i]) {
      RunKeepsOffset(slot.start, slot.trace);
    }
    forall i | LastOffsetStoreAt(slot.trace, i) ensures slot.CachedOffset() == slot.trace[i].offset {
      RunOffset(slot.start, slot.trace, i);
    }
  }

  /** customSetter() returns the function stored by the last setCustomValue or setCustomAccessor call. */
  lemma CustomSetterIsLastStored(slot: PutPropertySlot)
    requires slot.Valid() && slot.IsCacheableCustom()
    ensures exists i :: 0 <= i < |slot.trace| && StoresPutFunction(slot.trace[i])
    ensures forall i :: LastPutFunctionStoreAt(slot.trace, i) ==> slot.CustomSetter() == slot.trace[i].fn
  {
    if forall i :: 0 <= i < |slot.trace| ==> !StoresPutFunction(slot.trace[i]) {
      RunKeepsPutFunction(slot.start, slot.trace);
    }
    forall i | LastPutFunctionStoreAt(slot.trace, i) ensures slot.CustomSetter() == slot.trace[i].fn {
      RunPutFunction(slot.start, slot.trace, i);
    }
  }

  /** Caching stays allowed until disableCaching is called, and disallowed from then on. */
  lemma CachingAllowedUntilDisabled(slot: PutPropertySlot)
    requires slot.Valid()
    ensures slot.IsCacheable() <==> DisableCaching !in slot.trace
    ensures DisableCaching in slot.trace ==>
              !slot.IsCacheablePut() && !slot.IsCacheableSetter() &&
              !slot.IsCacheableCustom() && !slot.IsCustomAccessor()
  {
    RunCacheability(slot.start, slot.trace);
  }

  /** The taint flag is set exactly when setIsTaintedByOpaqueObject has been called. */
  lemma TaintIsSticky(slot: PutPropertySlot)
    requires slot.Valid()
    ensures slot.IsTaintedByOpaqueObject() <==> SetIsTaintedByOpaqueObject in slot.trace
  {
    RunTaint(slot.start, slot.trace);
  }

  /** Context and the initialization flag keep the values given to the constructor. */
  lemma ContextAndInitializationAreFixed(slot: PutPropertySlot)
    requires slot.Valid()
    ensures slot.Context() == slot.start.context
    ensures slot.IsInitialization() == slot.start.isInitialization
  {
    RunKeepsContextAndInitialization(slot.start, slot.trace);
  }

  /** thisValue() and isStrictMode() come from the last setThisValue and setStrictMode calls, or from the constructor. */
  lemma ThisValueAndStrictModeFollowLastSet(slot: PutPropertySlot)
    requires slot.Valid()
    ensures (forall i :: 0 <= i < |slot.trace| ==> !slot.trace[i].SetThisValue?) ==>
              slot.ThisValue() == slot.start.thisValue
    ensures forall i :: LastThisValueSetAt(slot.trace, i) ==> slot.ThisValue() == slot.trace[i].thisValue
    ensures (forall i :: 0 <= i < |slot.trace| ==> !slot.trace[i].SetStrictMode?) ==>
              slot.IsStrictMode() == slot.start.isStrictMode
    ensures forall i :: LastStrictModeSetAt(slot.trace, i) ==> slot.IsStrictMode() == slot.trace[i].value
  {
    if forall i :: 0 <= i < |slot.trace| ==> !slot.trace[i].SetThisValue? {
      RunKeepsThisValue(slot.start, slot.trace);
    }
    forall i | LastThisValueSetAt(slot.trace, i) ensures slot.ThisValue() == slot.trace[i].thisValue {
      RunThisValue(slot.start, slot.trace, i);
    }
    if forall i :: 0 <= i < |slot.trace| ==> !slot.trace[i].SetStrictMode? {
      RunKeepsStrictMode(slot.start, slot.trace);
    }
    forall i | LastStrictModeSetAt(slot.trace, i) ensures slot.IsStrictMode() == slot.trace[i].value {
      RunStrictMode(slot.start, slot.trace, i);
    }
  }

  /** A slot nothing has classified offers no fast path and no offset. */
  lemma UnclassifiedSlotCachesNothing(slot: PutPropertySlot)
    requires slot.Valid()
    requires forall i :: 0 <= i < |slot.trace| ==> !Classifies(slot.trace[i])
    ensures slot.Type() == Uncachable && slot.CachedOffset() == InvalidOffset
    ensures !slot.IsCacheablePut() && !slot.IsCacheableSetter()
    ensures !slot.IsCacheableCustom() && !slot.IsCustomAccessor()
  {
    RunKeepsTypeAndBase(slot.start, slot.trace);
    RunKeepsOffset(slot.start, slot.trace);
  }

  /** At most one kind of fast path is offered; an accessor with a function is also a cacheable custom write. */
  lemma FastPathsAreExclusive(slot: PutPropertySlot)
    ensures slot.IsCacheablePut() ==> !slot.IsCacheableSetter() && !slot.IsCacheableCustom()
    ensures slot.IsCacheableSetter() ==> !slot.IsCacheableCustom()
    ensures slot.IsCustomAccessor() ==> !slot.IsCacheablePut() && !slot.IsCacheableSetter()
    ensures slot.IsCustomAccessor() && slot.putFunction != NullFunction ==> slot.IsCacheableCustom()
  {
  }
}
