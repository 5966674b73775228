/**
 * The value-level semantics of a JSC PutPropertySlot: the enumerations and
 * opaque handles the slot stores, a snapshot of all of its fields, the
 * operations that change them, and what any sequence of those operations
 * leaves behind.
 */
module SlotState {

  /** The classification of one property write (PutPropertySlot::Type). */
  datatype SlotType =
    | Uncachable
    | ExistingProperty
    | NewProperty
    | SetterProperty
    | CustomValue
    | CustomAccessor

  /** The syntactic origin of the write (PutPropertySlot::Context). */
  datatype SlotContext = UnknownContext | PutById | PutByIdEval

  /** Whether an inline cache may be built from this slot. */
  datatype CacheabilityType = CachingAllowed | CachingDisallowed

  /** An engine value; only its identity matters here. */
  datatype JSValue = JSValue(encoded: int)

  /** A heap object the write reached; slots hold nullable references to it. */
  class JSObject { }

  /** A nullable handle on a custom put function. */
  datatype PutValueFunc = NullFunction | PutFunction(id: nat)

  /** A property offset is a plain integer; this one means "no slot". */
  const InvalidOffset: int := -1

  /** Every field of a PutPropertySlot at one moment. */
  datatype Slot = Slot(
    slotType: SlotType,
    base: JSObject?,
    thisValue: JSValue,
    offset: int,
    isStrictMode: bool,
    isInitialization: bool,
    isTaintedByOpaqueObject: bool,
    context: SlotContext,
    cacheability: CacheabilityType,
    putFunction: PutValueFunc)

  /** The fields as the constructor leaves them. */
  function Initial(thisValue: JSValue, isStrictMode: bool, context: SlotContext, isInitialization: bool): Slot
  {
    Slot(Uncachable, null, thisValue, InvalidOffset, isStrictMode, isInitialization,
         false, context, CachingAllowed, NullFunction)
  }

  /** One call of a mutating member function of PutPropertySlot. */
  datatype Op =
    | SetExistingProperty(base: JSObject?, offset: int)
    | SetNewProperty(base: JSObject?, offset: int)
    | SetCustomValue(base: JSObject?, fn: PutValueFunc)
    | SetCustomAccessor(base: JSObject?, fn: PutValueFunc)
    | SetCacheableSetter(base: JSObject?, offset: int)
    | SetThisValue(thisValue: JSValue)
    | SetStrictMode(value: bool)
    | SetIsTaintedByOpaqueObject
    | DisableCaching

  /** The calls that store an offset. */
  predicate StoresOffset(op: Op)
  {
    op.SetExistingProperty? || op.SetNewProperty? || op.SetCacheableSetter?
  }

  /** The calls that store a put function. */
  predicate StoresPutFunction(op: Op)
  {
    op.SetCustomValue? || op.SetCustomAccessor?
  }

  /** The calls that classify the write, i.e. set the type and the base. */
  predicate Classifies(op: Op)
  {
    StoresOffset(op) || StoresPutFunction(op)
  }

  /** The type a classifying call records. */
  function ClassifiedType(op: Op): SlotType
    requires Classifies(op)
  {
    match op
    case SetExistingProperty(_, _) => ExistingProperty
    case SetNewProperty(_, _) => NewProperty
    case SetCustomValue(_, _) => CustomValue
    case SetCustomAccessor(_, _) => CustomAccessor
    case SetCacheableSetter(_, _) => SetterProperty
  }

  /** The effect of one call on the fields. */
  function Step(s: Slot, op: Op): Slot
  {
    match op
    case SetExistingProperty(base, offset) => s.(slotType := ExistingProperty, base := base, offset := offset)
    case SetNewProperty(base, offset) => s.(slotType := NewProperty, base := base, offset := offset)
    case SetCustomValue(base, fn) => s.(slotType := CustomValue, base := base, putFunction := fn)
    case SetCustomAccessor(base, fn) => s.(slotType := CustomAccessor, base := base, putFunction := fn)
    case SetCacheableSetter(base, offset) => s.(slotType := SetterProperty, base := base, offset := offset)
    case SetThisValue(v) => s.(thisValue := v)
    case SetStrictMode(b) => s.(isStrictMode := b)
    case SetIsTaintedByOpaqueObject => s.(isTaintedByOpaqueObject := true)
    case DisableCaching => s.(cacheability := CachingDisallowed)
  }

  /** The fields after the calls `ops`, in order, starting from `s`. */
  function Run(s: Slot, ops: seq<Op>): Slot
  {
    if ops == [] then s else Step(Run(s, ops[..|ops| - 1]), ops[|ops| - 1])
  }

  lemma RunAppend(s: Slot, ops: seq<Op>, op: Op)
    ensures Run(s, ops + [op]) == Step(Run(s, ops), op)
  {
    assert (ops + [op])[..|ops|] == ops;
  }

  /** The fields one call changes that the history lemmas below follow. */
  lemma StepFields(s: Slot, op: Op)
    ensures Step(s, op).slotType == if Classifies(op) then ClassifiedType(op) else s.slotType
    ensures Step(s, op).base == if Classifies(op) then op.base else s.base
    ensures Step(s, op).offset == if StoresOffset(op) then op.offset else s.offset
    ensures Step(s, op).putFunction == if StoresPutFunction(op) then op.fn else s.putFunction
    ensures Step(s, op).cacheability == if op == DisableCaching then CachingDisallowed else s.cacheability
    ensures Step(s, op).isTaintedByOpaqueObject == (s.isTaintedByOpaqueObject || op == SetIsTaintedByOpaqueObject)
    ensures Step(s, op).context == s.context && Step(s, op).isInitialization == s.isInitialization
    ensures Step(s, op).thisValue == if op.SetThisValue? then op.thisValue else s.thisValue
    ensures Step(s, op).isStrictMode == if op.SetStrictMode? then op.value else s.isStrictMode
  {
  }

  /** Position `i` holds the last call in `ops` that classifies the write. */
  ghost predicate LastClassificationAt(ops: seq<Op>, i: int)
  {
    0 <= i < |ops| && Classifies(ops[i]) && forall j :: i < j < |ops| ==> !Classifies(ops[j])
  }

  /** Position `i` holds the last call in `ops` that stores an offset. */
  ghost predicate LastOffsetStoreAt(ops: seq<Op>, i: int)
  {
    0 <= i < |ops| && StoresOffset(ops[i]) && forall j :: i < j < |ops| ==> !StoresOffset(ops[j])
  }

  /** Position `i` holds the last call in `ops` that stores a put function. */
  ghost predicate LastPutFunctionStoreAt(ops: seq<Op>, i: int)
  {
    0 <= i < |ops| && StoresPutFunction(ops[i]) && forall j :: i < j < |ops| ==> !StoresPutFunction(ops[j])
  }

  /** Position `i` holds the last setThisValue call in `ops`. */
  ghost predicate LastThisValueSetAt(ops: seq<Op>, i: int)
  {
    0 <= i < |ops| && ops[i].SetThisValue? && forall j :: i < j < |ops| ==> !ops[j].SetThisValue?
  }

  /** Position `i` holds the last setStrictMode call in `ops`. */
  ghost predicate LastStrictModeSetAt(ops: seq<Op>, i: int)
  {
    0 <= i < |ops| && ops[i].SetStrictMode? && forall j :: i < j < |ops| ==> !ops[j].SetStrictMode?
  }

  /** No call ever resets the context or the initialization flag. */
  lemma {:induction false} RunKeepsContextAndInitialization(s: Slot, ops: seq<Op>)
    ensures Run(s, ops).context == s.context
    ensures Run(s, ops).isInitialization == s.isInitialization
  {
    if ops != [] {
      RunKeepsContextAndInitialization(s, ops[..|ops| - 1]);
      StepFields(Run(s, ops[..|ops| - 1]), ops[|ops| - 1]);
    }
  }

  /** Caching is disallowed exactly when it was already, or some call disabled it. */
  lemma {:induction false} RunCacheability(s: Slot, ops: seq<Op>)
    ensures Run(s, ops).cacheability ==
            if DisableCaching in ops then CachingDisallowed else s.cacheability
  {
    if ops != [] {
      var prefix := ops[..|ops| - 1];
      RunCacheability(s, prefix);
      StepFields(Run(s, prefix), ops[|ops| - 1]);
      assert ops == prefix + [ops[|ops| - 1]];
    }
  }

  /** The taint flag is set exactly when it was already, or some call set it. */
  lemma {:induction false} RunTaint(s: Slot, ops: seq<Op>)
    ensures Run(s, ops).isTaintedByOpaqueObject ==
            (s.isTaintedByOpaqueObject || SetIsTaintedByOpaqueObject in ops)
  {
    if ops != [] {
      var prefix := ops[..|ops| - 1];
      RunTaint(s, prefix);
      StepFields(Run(s, prefix), ops[|ops| - 1]);
      assert ops == prefix + [ops[|ops| - 1]];
    }
  }

  /** With no classifying call, the type and base are unchanged. */
  lemma {:induction false} RunKeepsTypeAndBase(s: Slot, ops: seq<Op>)
    requires forall i :: 0 <= i < |ops| ==> !Classifies(ops[i])
    ensures Run(s, ops).slotType == s.slotType && Run(s, ops).base == s.base
  {
    if ops != [] {
      var prefix := ops[..|ops| - 1];
      assert forall i :: 0 <= i < |prefix| ==> prefix[i] == ops[i];
      RunKeepsTypeAndBase(s, prefix);
      StepFields(Run(s, prefix), ops[|ops| - 1]);
    }
  }

  /** The type and base are those of the last classifying call. */
  lemma {:induction false} RunTypeAndBase(s: Slot, ops: seq<Op>, i: int)
    requires LastClassificationAt(ops, i)
    ensures Run(s, ops).slotType == ClassifiedType(ops[i]) && Run(s, ops).base == ops[i].base
  {
    var n := |ops| - 1;
    var prefix := ops[..n];
    StepFields(Run(s, prefix), ops[n]);
    if i < n {
      assert !Classifies(ops[n]);
      assert forall j :: i < j < n ==> prefix[j] == ops[j];
      RunTypeAndBase(s, prefix, i);
    }
  }

  /** With no offset-storing call, the offset is unchanged. */
  lemma {:induction false} RunKeepsOffset(s: Slot, ops: seq<Op>)
    requires forall i :: 0 <= i < |ops| ==> !StoresOffset(ops[i])
    ensures Run(s, ops).offset == s.offset
  {
    if ops != [] {
      var prefix := ops[..|ops| - 1];
      assert forall i :: 0 <= i < |prefix| ==> prefix[i] == ops[i];
      RunKeepsOffset(s, prefix);
      StepFields(Run(s, prefix), ops[|ops| - 1]);
    }
  }

  /** The offset is the one given to the last offset-storing call. */
  lemma {:induction false} RunOffset(s: Slot, ops: seq<Op>, i: int)
    requires LastOffsetStoreAt(ops, i)
    ensures Run(s, ops).offset == ops[i].offset
  {
    var n := |ops| - 1;
    var prefix := ops[..n];
    StepFields(Run(s, prefix), ops[n]);
    if i < n {
      assert !StoresOffset(ops[n]);
      assert forall j :: i < j < n ==> prefix[j] == ops[j];
      RunOffset(s, prefix, i);
    }
  }

  /** With no call that stores a put function, the put function is unchanged. */
  lemma {:induction false} RunKeepsPutFunction(s: Slot, ops: seq<Op>)
    requires forall i :: 0 <= i < |ops| ==> !StoresPutFunction(ops[i])
    ensures Run(s, ops).putFunction == s.putFunction
  {
    if ops != [] {
      var prefix := ops[..|ops| - 1];
      assert forall i :: 0 <= i < |prefix| ==> prefix[i] == ops[i];
      RunKeepsPutFunction(s, prefix);
      StepFields(Run(s, prefix), ops[|ops| - 1]);
    }
  }

  /** The put function is the one given to the last call that stores one. */
  lemma {:induction false} RunPutFunction(s: Slot, ops: seq<Op>, i: int)
    requires LastPutFunctionStoreAt(ops, i)
    ensures Run(s, ops).putFunction == ops[i].fn
  {
    var n := |ops| - 1;
    var prefix := ops[..n];
    StepFields(Run(s, prefix), ops[n]);
    if i < n {
      assert !StoresPutFunction(ops[n]);
      assert forall j :: i < j < n ==> prefix[j] == ops[j];
      RunPutFunction(s, prefix, i);
    }
  }

  /** With no setThisValue call, thisValue is unchanged. */
  lemma {:induction false} RunKeepsThisValue(s: Slot, ops: seq<Op>)
    requires forall i :: 0 <= i < |ops| ==> !ops[i].SetThisValue?
    ensures Run(s, ops).thisValue == s.thisValue
  {
    if ops != [] {
      var prefix := ops[..|ops| - 1];
      assert forall i :: 0 <= i < |prefix| ==> prefix[i] == ops[i];
      RunKeepsThisValue(s, prefix);
      StepFields(Run(s, prefix), ops[|ops| - 1]);
    }
  }

  /** thisValue is the one given to the last setThisValue call. */
  lemma {:induction false} RunThisValue(s: Slot, ops: seq<Op>, i: int)
    requires LastThisValueSetAt(ops, i)
    ensures Run(s, ops).thisValue == ops[i].thisValue
  {
    var n := |ops| - 1;
    var prefix := ops[..n];
    StepFields(Run(s, prefix), ops[n]);
    if i < n {
      assert !ops[n].SetThisValue?;
      assert forall j :: i < j < n ==> prefix[j] == ops[j];
      RunThisValue(s, prefix, i);
    }
  }

  /** With no setStrictMode call, the strict-mode flag is unchanged. */
  lemma {:induction false} RunKeepsStrictMode(s: Slot, ops: seq<Op>)
    requires forall i :: 0 <= i < |ops| ==> !ops[i].SetStrictMode?
    ensures Run(s, ops).isStrictMode == s.isStrictMode
  {
    if ops != [] {
      var prefix := ops[..|ops| - 1];
      assert forall i :: 0 <= i < |prefix| ==> prefix[i] == ops[i];
      RunKeepsStrictMode(s, prefix);
      StepFields(Run(s, prefix), ops[|ops| - 1]);
    }
  }

  /** The strict-mode flag is the one given to the last setStrictMode call. */
  lemma {:induction false} RunStrictMode(s: Slot, ops: seq<Op>, i: int)
    requires LastStrictModeSetAt(ops, i)
    ensures Run(s, ops).isStrictMode == ops[i].value
  {
    var n := |ops| - 1;
    var prefix := ops[..n];
    StepFields(Run(s, prefix), ops[n]);
    if i < n {
      assert !ops[n].SetStrictMode?;
      assert forall j :: i < j < n ==> prefix[j] == ops[j];
      RunStrictMode(s, prefix, i);
    }
  }

  /** Disabling caching twice is the same as disabling it once. */
  lemma DisableCachingIdempotent(s: Slot)
    ensures Step(Step(s, DisableCaching), DisableCaching) == Step(s, DisableCaching)
  {
  }
}
