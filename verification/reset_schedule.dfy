/**
  `ResetSchedule`: the policy that places reset (fixing) dates inside each accrual
  period of a floating leg and says how several fixings combine into one rate.
  It is an immutable three-field value built through a mutable builder; the
  model gives the builder's state as a datatype and each builder call as a
  function from state to `Step` (new state plus the exception thrown, if any).
 */
module ResetSchedules {
  import opened Beans
  import JavaString
  import PropertyHashes

  /** The periodic frequency of reset dates; its internals are not part of this model. */
  type Frequency(==)

  /** The rule that moves a reset date onto a business day; its internals are not part of this model. */
  type BusinessDayAdjustment(==)

  /**
    How the fixings of one accrual period combine, after article 6.2a of the 2006
    ISDA Definitions: a plain average, or an average weighted by the number of
    days in each reset period.
   */
  datatype RateAveragingMethod = Unweighted | Weighted

  /** A built reset schedule: every field is present, by construction. */
  datatype ResetSchedule = ResetSchedule(
    resetFrequency: Frequency,
    resetBusinessDayAdjustment: BusinessDayAdjustment,
    rateAveragingMethod: RateAveragingMethod)

  /** The builder's state: each field may still be null. */
  datatype Builder = Builder(
    resetFrequency: Nullable<Frequency>,
    resetBusinessDayAdjustment: Nullable<BusinessDayAdjustment>,
    rateAveragingMethod: Nullable<RateAveragingMethod>)

  /** The three properties of the bean. */
  datatype Property = FrequencyProperty | AdjustmentProperty | AveragingProperty

  /** An `Object` handed to, or returned by, the name-keyed builder access. */
  datatype Value =
    | NullValue
    | FrequencyValue(frequency: Frequency)
    | AdjustmentValue(adjustment: BusinessDayAdjustment)
    | AveragingValue(averaging: RateAveragingMethod)
    | OtherValue  // an instance of a class none of the properties can hold

  function Name(p: Property): string {
    match p
    case FrequencyProperty => "resetFrequency"
    case AdjustmentProperty => "resetBusinessDayAdjustment"
    case AveragingProperty => "rateAveragingMethod"
  }

  //---------------------------------------------------------------------------
  // The immutable value

  /**
    The private constructor: each field is checked for null in declaration order,
    and the first null one is reported.
   */
  function Create(f: Nullable<Frequency>, a: Nullable<BusinessDayAdjustment>, m: Nullable<RateAveragingMethod>)
    : (r: Result<ResetSchedule, Exception>)
    ensures r.Ok? <==> f.NonNull? && a.NonNull? && m.NonNull?
    ensures r.Ok? ==>
      && NonNull(r.value.resetFrequency) == f
      && NonNull(r.value.resetBusinessDayAdjustment) == a
      && NonNull(r.value.rateAveragingMethod) == m
    ensures f.Null? ==> r == Err(IllegalArgument("resetFrequency"))
    ensures f.NonNull? && a.Null? ==> r == Err(IllegalArgument("resetBusinessDayAdjustment"))
    ensures f.NonNull? && a.NonNull? && m.Null? ==> r == Err(IllegalArgument("rateAveragingMethod"))
  {
    var frequency :- NotNull(f, "resetFrequency");
    var adjustment :- NotNull(a, "resetBusinessDayAdjustment");
    var averaging :- NotNull(m, "rateAveragingMethod");
    Ok(ResetSchedule(frequency, adjustment, averaging))
  }

  /**
    `equals(Object)`: true exactly for a non-null schedule whose three fields
    equal this one's, which is Dafny's own structural equality.
   */
  function Equals(s: ResetSchedule, other: Nullable<ResetSchedule>): (r: bool)
    ensures r <==> other == NonNull(s)
  {
    && other.NonNull?
    && s.resetFrequency == other.get.resetFrequency
    && s.resetBusinessDayAdjustment == other.get.resetBusinessDayAdjustment
    && s.rateAveragingMethod == other.get.rateAveragingMethod
  }

  //---------------------------------------------------------------------------
  // Typed builder calls

  /** The builder with nothing set, before defaults are applied. */
  const Unset: Builder := Builder(Null, Null, Null)

  /** `resetFrequency(Frequency)`: rejects null before assigning, and touches no other field. */
  function SetResetFrequency(b: Builder, f: Nullable<Frequency>): (r: Step<Builder>)
    ensures r.thrown.Some? <==> f.Null?
    ensures r.thrown.Some? ==> r == Step(b, Some(IllegalArgument("resetFrequency")))
    ensures r.thrown.None? ==> r.state.resetFrequency == f
    ensures r.state.resetBusinessDayAdjustment == b.resetBusinessDayAdjustment
    ensures r.state.rateAveragingMethod == b.rateAveragingMethod
  {
    match NotNull(f, "resetFrequency")
    case Err(e) => Step(b, Some(e))
    case Ok(_) => Step(b.(resetFrequency := f), None)
  }

  /** `resetBusinessDayAdjustment(BusinessDayAdjustment)`: rejects null before assigning, and touches no other field. */
  function SetResetBusinessDayAdjustment(b: Builder, a: Nullable<BusinessDayAdjustment>): (r: Step<Builder>)
    ensures r.thrown.Some? <==> a.Null?
    ensures r.thrown.Some? ==> r == Step(b, Some(IllegalArgument("resetBusinessDayAdjustment")))
    ensures r.thrown.None? ==> r.state.resetBusinessDayAdjustment == a
    ensures r.state.resetFrequency == b.resetFrequency
    ensures r.state.rateAveragingMethod == b.rateAveragingMethod
  {
    match NotNull(a, "resetBusinessDayAdjustment")
    case Err(e) => Step(b, Some(e))
    case Ok(_) => Step(b.(resetBusinessDayAdjustment := a), None)
  }

  /** `rateAveragingMethod(RateAveragingMethod)`: rejects null before assigning, and touches no other field. */
  function SetRateAveragingMethod(b: Builder, m: Nullable<RateAveragingMethod>): (r: Step<Builder>)
    ensures r.thrown.Some? <==> m.Null?
    ensures r.thrown.Some? ==> r == Step(b, Some(IllegalArgument("rateAveragingMethod")))
    ensures r.thrown.None? ==> r.state.rateAveragingMethod == m
    ensures r.state.resetFrequency == b.resetFrequency
    ensures r.state.resetBusinessDayAdjustment == b.resetBusinessDayAdjustment
  {
    match NotNull(m, "rateAveragingMethod")
    case Err(e) => Step(b, Some(e))
    case Ok(_) => Step(b.(rateAveragingMethod := m), None)
  }

  /**
    `ResetSchedule.builder()`: the no-argument constructor applies the defaults,
    which set the averaging method through its typed setter.
   */
  function NewBuilder(): (b: Builder)
    ensures b.rateAveragingMethod == NonNull(Unweighted)
    ensures b.resetFrequency.Null? && b.resetBusinessDayAdjustment.Null?
  {
    SetRateAveragingMethod(Unset, NonNull(Unweighted)).state
  }

  /** `toBuilder()`: the copy constructor copies all three fields and applies no defaults. */
  function ToBuilder(s: ResetSchedule): (b: Builder)
    ensures Build(b) == Ok(s)
    ensures b.resetFrequency.NonNull? && b.resetBusinessDayAdjustment.NonNull? && b.rateAveragingMethod.NonNull?
  {
    Builder(NonNull(s.resetFrequency), NonNull(s.resetBusinessDayAdjustment), NonNull(s.rateAveragingMethod))
  }

  /**
    `build()`: hands the builder's fields to the private constructor, so it
    succeeds exactly when all three are set, and the getters of the result give
    back exactly those fields.
   */
  function Build(b: Builder): (r: Result<ResetSchedule, Exception>)
    ensures r.Ok? <==> b.resetFrequency.NonNull? && b.resetBusinessDayAdjustment.NonNull? && b.rateAveragingMethod.NonNull?
    ensures r.Ok? ==>
      && r.value.resetFrequency == b.resetFrequency.get
      && r.value.resetBusinessDayAdjustment == b.resetBusinessDayAdjustment.get
      && r.value.rateAveragingMethod == b.rateAveragingMethod.get
    ensures b.resetFrequency.Null? ==> r == Err(IllegalArgument("resetFrequency"))
    ensures b.resetFrequency.NonNull? && b.resetBusinessDayAdjustment.Null? ==>
      r == Err(IllegalArgument("resetBusinessDayAdjustment"))
    ensures b.resetFrequency.NonNull? && b.resetBusinessDayAdjustment.NonNull? && b.rateAveragingMethod.Null? ==>
      r == Err(IllegalArgument("rateAveragingMethod"))
  {
    Create(b.resetFrequency, b.resetBusinessDayAdjustment, b.rateAveragingMethod)
  }

  //---------------------------------------------------------------------------
  // Name-keyed builder access

  /** The property with exactly the given name, if any. */
  function Named(name: string): (r: Option<Property>)
    ensures r.None? <==> forall p :: Name(p) != name
    ensures r.Some? ==> Name(r.value) == name
  {
    if name == Name(FrequencyProperty) then Some(FrequencyProperty)
    else if name == Name(AdjustmentProperty) then Some(AdjustmentProperty)
    else if name == Name(AveragingProperty) then Some(AveragingProperty)
    else None
  }

  /**
    The property the generated `switch (propertyName.hashCode())` selects, with
    the case labels as written: a name is matched by its hash code alone.
   */
  function Switched(name: string): (r: Option<Property>)
    ensures r.None? <==> forall p :: JavaString.HashCode(name) != JavaString.HashCode(Name(p))
    ensures r.Some? ==> JavaString.HashCode(name) == JavaString.HashCode(Name(r.value))
    ensures forall p :: JavaString.HashCode(name) == JavaString.HashCode(Name(p)) ==> r == Some(p)
  {
    SwitchLabels();
    var h := JavaString.HashCode(name);
    if h == 101322957 then Some(FrequencyProperty)
    else if h == -1777046470 then Some(AdjustmentProperty)
    else if h == 154998811 then Some(AveragingProperty)
    else None
  }

  /** Whether the cast `(T) value` to the class of property `p` succeeds; a null casts to every class. */
  predicate Accepts(p: Property, v: Value) {
    match v
    case NullValue => true
    case FrequencyValue(_) => p == FrequencyProperty
    case AdjustmentValue(_) => p == AdjustmentProperty
    case AveragingValue(_) => p == AveragingProperty
    case OtherValue => false
  }

  /** The builder field of property `p`, as the `Object` the name-keyed getter returns. */
  function FieldValue(b: Builder, p: Property): (v: Value)
    ensures Accepts(p, v)
  {
    match p
    case FrequencyProperty =>
      if b.resetFrequency.NonNull? then FrequencyValue(b.resetFrequency.get) else NullValue
    case AdjustmentProperty =>
      if b.resetBusinessDayAdjustment.NonNull? then AdjustmentValue(b.resetBusinessDayAdjustment.get) else NullValue
    case AveragingProperty =>
      if b.rateAveragingMethod.NonNull? then AveragingValue(b.rateAveragingMethod.get) else NullValue
  }

  /**
    One case of the name-keyed setter: cast, then assign with no null check. On
    success the named field holds the value (null included) and no other field moves.
   */
  function Assign(b: Builder, p: Property, v: Value): (r: Result<Builder, Exception>)
    ensures r.Ok? <==> Accepts(p, v)
    ensures r.Ok? ==> FieldValue(r.value, p) == v
    ensures r.Ok? ==> forall q :: q != p ==> FieldValue(r.value, q) == FieldValue(b, q)
    ensures r.Err? ==> r.error == ClassCast(Name(p))
  {
    match (p, v)
    case (FrequencyProperty, NullValue) => Ok(b.(resetFrequency := Null))
    case (FrequencyProperty, FrequencyValue(f)) => Ok(b.(resetFrequency := NonNull(f)))
    case (AdjustmentProperty, NullValue) => Ok(b.(resetBusinessDayAdjustment := Null))
    case (AdjustmentProperty, AdjustmentValue(a)) => Ok(b.(resetBusinessDayAdjustment := NonNull(a)))
    case (AveragingProperty, NullValue) => Ok(b.(rateAveragingMethod := Null))
    case (AveragingProperty, AveragingValue(m)) => Ok(b.(rateAveragingMethod := NonNull(m)))
    case _ => Err(ClassCast(Name(p)))
  }

  /**
    `set(String, Object)` dispatching on the exact property name: an unknown
    name or a value of the wrong class throws and leaves the builder alone;
    otherwise the named field takes the value, null included, and nothing else
    changes.
   */
  function SetProperty(b: Builder, name: string, v: Value): (r: Step<Builder>)
    ensures (forall p :: Name(p) != name) ==> r == Step(b, Some(NoSuchElement(name)))
    ensures forall p :: Name(p) == name && !Accepts(p, v) ==> r == Step(b, Some(ClassCast(name)))
    ensures forall p :: Name(p) == name && Accepts(p, v) ==>
      && r.thrown.None?
      && FieldValue(r.state, p) == v
      && forall q :: q != p ==> FieldValue(r.state, q) == FieldValue(b, q)
  {
    SetSelected(b, name, Named(name), p => Assign(b, p, v))
  }

  /**
    `set(String, Object)` as written: the property is chosen by the name's hash
    code. A name whose hash is no property's throws; a name sharing the hash of
    property `p` (the labels are distinct, so there is one such `p`) casts and
    assigns to `p` exactly as `p`'s own name would; a throw leaves the builder alone.
   */
  function SetPropertyAsWritten(b: Builder, name: string, v: Value): (r: Step<Builder>)
    ensures (forall p :: JavaString.HashCode(name) != JavaString.HashCode(Name(p))) ==>
      r == Step(b, Some(NoSuchElement(name)))
    ensures forall p :: JavaString.HashCode(name) == JavaString.HashCode(Name(p)) && !Accepts(p, v) ==>
      r == Step(b, Some(ClassCast(Name(p))))
    ensures forall p :: JavaString.HashCode(name) == JavaString.HashCode(Name(p)) && Accepts(p, v) ==>
      && r.thrown.None?
      && FieldValue(r.state, p) == v
      && forall q :: q != p ==> FieldValue(r.state, q) == FieldValue(b, q)
    ensures r.thrown.Some? ==> r.state == b
  {
    SetSelected(b, name, Switched(name), p => Assign(b, p, v))
  }

  /** `get(String)` dispatching on the exact property name. */
  function GetProperty(b: Builder, name: string): (r: Result<Value, Exception>)
    ensures (forall p :: Name(p) != name) ==> r == Err(NoSuchElement(name))
    ensures forall p :: Name(p) == name ==> r == Ok(FieldValue(b, p))
  {
    GetSelected(name, Named(name), p => FieldValue(b, p))
  }

  /**
    `get(String)` as written: the property is chosen by the name's hash code, so
    any name sharing the hash of property `p` reads `p`'s field.
   */
  function GetPropertyAsWritten(b: Builder, name: string): (r: Result<Value, Exception>)
    ensures (forall p :: JavaString.HashCode(name) != JavaString.HashCode(Name(p))) ==> r == Err(NoSuchElement(name))
    ensures forall p :: JavaString.HashCode(name) == JavaString.HashCode(Name(p)) ==> r == Ok(FieldValue(b, p))
  {
    GetSelected(name, Switched(name), p => FieldValue(b, p))
  }

  //---------------------------------------------------------------------------
  // Properties relating several calls

  /** A built schedule copies back into the very builder it was built from. */
  lemma BuildThenCopy(b: Builder)
    requires Build(b).Ok?
    ensures ToBuilder(Build(b).value) == b
  {
  }

  /**
    A fresh builder fails to build until both mandatory fields are set; with both
    set it builds a schedule whose averaging method is the default, unweighted.
   */
  lemma FreshBuilderLifecycle(f: Frequency, a: BusinessDayAdjustment)
    ensures Build(NewBuilder()) == Err(IllegalArgument("resetFrequency"))
    ensures Build(SetResetFrequency(NewBuilder(), NonNull(f)).state) == Err(IllegalArgument("resetBusinessDayAdjustment"))
    ensures Build(SetResetBusinessDayAdjustment(NewBuilder(), NonNull(a)).state) == Err(IllegalArgument("resetFrequency"))
    ensures Build(SetResetBusinessDayAdjustment(SetResetFrequency(NewBuilder(), NonNull(f)).state, NonNull(a)).state)
      == Ok(ResetSchedule(f, a, Unweighted))
  {
  }

  /** On a non-null value the typed setters and the name-keyed setter do the same thing. */
  lemma TypedSettersAgreeWithNamed(b: Builder, f: Frequency, a: BusinessDayAdjustment, m: RateAveragingMethod)
    ensures SetResetFrequency(b, NonNull(f)) == SetProperty(b, "resetFrequency", FrequencyValue(f))
    ensures SetResetBusinessDayAdjustment(b, NonNull(a)) == SetProperty(b, "resetBusinessDayAdjustment", AdjustmentValue(a))
    ensures SetRateAveragingMethod(b, NonNull(m)) == SetProperty(b, "rateAveragingMethod", AveragingValue(m))
  {
  }

  /**
    A null passes the name-keyed setter, where the typed setter rejects it; the
    missing field then surfaces only when the builder is built.
   */
  lemma NamedSetterDefersNullCheck(b: Builder, p: Property)
    ensures SetProperty(b, Name(p), NullValue).thrown.None?
    ensures Build(SetProperty(b, Name(p), NullValue).state).Err?
    ensures p == FrequencyProperty ==> SetResetFrequency(b, Null).thrown == Some(IllegalArgument(Name(p)))
    ensures p == AdjustmentProperty ==> SetResetBusinessDayAdjustment(b, Null).thrown == Some(IllegalArgument(Name(p)))
    ensures p == AveragingProperty ==> SetRateAveragingMethod(b, Null).thrown == Some(IllegalArgument(Name(p)))
  {
  }

  /** What the name-keyed setter stores, the name-keyed getter returns; other names read as before. */
  lemma GetAfterSet(b: Builder, name: string, v: Value, other: string)
    requires SetProperty(b, name, v).thrown.None?
    ensures GetProperty(SetProperty(b, name, v).state, name) == Ok(v)
    ensures other != name ==> GetProperty(SetProperty(b, name, v).state, other) == GetProperty(b, other)
  {
  }

  /** Two schedules are equal exactly when their three fields are pairwise equal. */
  lemma EqualityIsFieldwise(s: ResetSchedule, t: ResetSchedule)
    ensures Equals(s, NonNull(t)) <==>
      && s.resetFrequency == t.resetFrequency
      && s.resetBusinessDayAdjustment == t.resetBusinessDayAdjustment
      && s.rateAveragingMethod == t.rateAveragingMethod
    ensures Equals(s, NonNull(t)) == Equals(t, NonNull(s))
    ensures !Equals(s, Null)
  {
  }

  //---------------------------------------------------------------------------
  // The hash-code switch

  /** The case labels of the generated switches are the hash codes of the three property names. */
  lemma SwitchLabels()
    ensures JavaString.HashCode(Name(FrequencyProperty)) == 101322957
    ensures JavaString.HashCode(Name(AdjustmentProperty)) == -1777046470
    ensures JavaString.HashCode(Name(AveragingProperty)) == 154998811
  {
    PropertyHashes.ResetFrequency();
    PropertyHashes.ResetBusinessDayAdjustment();
    PropertyHashes.RateAveragingMethod();
  }

  /**
    The hash-code switch picks the right property for every real property name,
    and agrees with exact matching on every name whose hash is not a label.
   */
  lemma SwitchAgreesOffCollisions(b: Builder, name: string, v: Value)
    requires Named(name).Some? || forall p :: JavaString.HashCode(name) != JavaString.HashCode(Name(p))
    ensures Switched(name) == Named(name)
    ensures SetPropertyAsWritten(b, name, v) == SetProperty(b, name, v)
    ensures GetPropertyAsWritten(b, name) == GetProperty(b, name)
  {
    SwitchLabels();
  }

  /**
    A name that is not a property but shares the hash code of "resetFrequency"
    is routed to that property by the switch as written, where exact matching
    rejects it as unknown.
   */
  lemma CollidingNameReachesResetFrequency(b: Builder, f: Frequency)
    ensures Named("sFsetFrequency").None?
    ensures Switched("sFsetFrequency") == Some(FrequencyProperty)
    ensures SetProperty(b, "sFsetFrequency", FrequencyValue(f)) == Step(b, Some(NoSuchElement("sFsetFrequency")))
    ensures SetPropertyAsWritten(b, "sFsetFrequency", FrequencyValue(f)) == Step(b.(resetFrequency := NonNull(f)), None)
    ensures GetPropertyAsWritten(b, "sFsetFrequency") == Ok(FieldValue(b, FrequencyProperty))
  {
    assert "resetFrequency" == [] + ['r', 'e'] + "setFrequency";
    assert "sFsetFrequency" == [] + ['s', 'F'] + "setFrequency";
    JavaString.AdjacentPairCollision([], 'r', 'e', 's', 'F', "setFrequency");
  }
}
