/**
  `ResolvedCdsTrade`: a single-name credit default swap trade, resolved for
  pricing. It holds trade information (defaulted to an empty instance), the
  resolved product (mandatory) and an upfront fee that is genuinely optional:
  a trade at par has none. Built through a mutable builder, modelled as in
  `ResetSchedules`: builder state as a datatype, each call a function to `Step`.
 */
module ResolvedCdsTrades {
  import opened Beans
  import JavaString
  import PropertyHashes

  /** Additional trade information; its internals are not part of this model. */
  type TradeInfo(==)

  /** The resolved CDS product; its internals are not part of this model. */
  type ResolvedCds(==)

  /** A single payment of an amount on a date; its internals are not part of this model. */
  type Payment(==)

  /** A built trade: `info` and `product` are present by construction; the fee field may hold null. */
  datatype ResolvedCdsTrade = ResolvedCdsTrade(
    info: TradeInfo,
    product: ResolvedCds,
    upfrontFee: Nullable<Payment>)

  /** The builder's state: each field may still be null. */
  datatype Builder = Builder(
    info: Nullable<TradeInfo>,
    product: Nullable<ResolvedCds>,
    upfrontFee: Nullable<Payment>)

  /** The three properties of the bean. */
  datatype Property = InfoProperty | ProductProperty | UpfrontFeeProperty

  /** An `Object` handed to, or returned by, the name-keyed builder access. */
  datatype Value =
    | NullValue
    | InfoValue(tradeInfo: TradeInfo)
    | ProductValue(cds: ResolvedCds)
    | PaymentValue(payment: Payment)
    | OtherValue  // an instance of a class none of the properties can hold

  function Name(p: Property): string {
    match p
    case InfoProperty => "info"
    case ProductProperty => "product"
    case UpfrontFeeProperty => "upfrontFee"
  }

  //---------------------------------------------------------------------------
  // The immutable value

  /**
    The private constructor: `info` and then `product` are checked for null;
    the fee is stored as given, null included.
   */
  function Create(info: Nullable<TradeInfo>, product: Nullable<ResolvedCds>, fee: Nullable<Payment>)
    : (r: Result<ResolvedCdsTrade, Exception>)
    ensures r.Ok? <==> info.NonNull? && product.NonNull?
    ensures r.Ok? ==>
      && NonNull(r.value.info) == info
      && NonNull(r.value.product) == product
      && r.value.upfrontFee == fee
    ensures info.Null? ==> r == Err(IllegalArgument("info"))
    ensures info.NonNull? && product.Null? ==> r == Err(IllegalArgument("product"))
  {
    var i :- NotNull(info, "info");
    var p :- NotNull(product, "product");
    Ok(ResolvedCdsTrade(i, p, fee))
  }

  /** `getUpfrontFee()`: absent exactly when the stored fee is null. */
  function GetUpfrontFee(t: ResolvedCdsTrade): (r: Option<Payment>)
    ensures r.None? <==> t.upfrontFee.Null?
    ensures r.Some? ==> t.upfrontFee == NonNull(r.value)
  {
    OfNullable(t.upfrontFee)
  }

  /**
    `equals(Object)`: true exactly for a non-null trade whose three fields equal
    this one's, a null fee equal only to a null fee.
   */
  function Equals(t: ResolvedCdsTrade, other: Nullable<ResolvedCdsTrade>): (r: bool)
    ensures r <==> other == NonNull(t)
  {
    && other.NonNull?
    && t.info == other.get.info
    && t.product == other.get.product
    && t.upfrontFee == other.get.upfrontFee
  }

  //---------------------------------------------------------------------------
  // Typed builder calls

  /**
    `ResolvedCdsTrade.builder()`: the defaults assign `info` directly, to the
    empty trade information, which the caller supplies since `TradeInfo` is not
    part of this model.
   */
  function NewBuilder(emptyInfo: TradeInfo): (b: Builder)
    ensures b.info == NonNull(emptyInfo)
    ensures b.product.Null? && b.upfrontFee.Null?
  {
    Builder(NonNull(emptyInfo), Null, Null)
  }

  /** `info(TradeInfo)`: rejects null before assigning, and touches no other field. */
  function SetInfo(b: Builder, info: Nullable<TradeInfo>): (r: Step<Builder>)
    ensures r.thrown.Some? <==> info.Null?
    ensures r.thrown.Some? ==> r == Step(b, Some(IllegalArgument("info")))
    ensures r.thrown.None? ==> r.state.info == info
    ensures r.state.product == b.product && r.state.upfrontFee == b.upfrontFee
  {
    match NotNull(info, "info")
    case Err(e) => Step(b, Some(e))
    case Ok(_) => Step(b.(info := info), None)
  }

  /** `product(ResolvedCds)`: rejects null before assigning, and touches no other field. */
  function SetProduct(b: Builder, product: Nullable<ResolvedCds>): (r: Step<Builder>)
    ensures r.thrown.Some? <==> product.Null?
    ensures r.thrown.Some? ==> r == Step(b, Some(IllegalArgument("product")))
    ensures r.thrown.None? ==> r.state.product == product
    ensures r.state.info == b.info && r.state.upfrontFee == b.upfrontFee
  {
    match NotNull(product, "product")
    case Err(e) => Step(b, Some(e))
    case Ok(_) => Step(b.(product := product), None)
  }

  /** `upfrontFee(Payment)`: never throws; a null clears the fee. */
  function SetUpfrontFee(b: Builder, fee: Nullable<Payment>): (r: Step<Builder>)
    ensures r.thrown.None?
    ensures r.state.upfrontFee == fee
    ensures r.state.info == b.info && r.state.product == b.product
  {
    Step(b.(upfrontFee := fee), None)
  }

  /** `toBuilder()`: the copy constructor copies all three fields, an absent fee as absent. */
  function ToBuilder(t: ResolvedCdsTrade): (b: Builder)
    ensures Build(b) == Ok(t)
    ensures b.info.NonNull? && b.product.NonNull? && b.upfrontFee == t.upfrontFee
  {
    Builder(NonNull(t.info), NonNull(t.product), t.upfrontFee)
  }

  /**
    `build()`: hands the builder's fields to the private constructor, so it
    succeeds exactly when `info` and `product` are set, whatever the fee.
   */
  function Build(b: Builder): (r: Result<ResolvedCdsTrade, Exception>)
    ensures r.Ok? <==> b.info.NonNull? && b.product.NonNull?
    ensures r.Ok? ==>
      && r.value.info == b.info.get
      && r.value.product == b.product.get
      && r.value.upfrontFee == b.upfrontFee
    ensures b.info.Null? ==> r == Err(IllegalArgument("info"))
    ensures b.info.NonNull? && b.product.Null? ==> r == Err(IllegalArgument("product"))
  {
    Create(b.info, b.product, b.upfrontFee)
  }

  //---------------------------------------------------------------------------
  // Name-keyed builder access

  /** The property with exactly the given name, if any. */
  function Named(name: string): (r: Option<Property>)
    ensures r.None? <==> forall p :: Name(p) != name
    ensures r.Some? ==> Name(r.value) == name
  {
    if name == Name(InfoProperty) then Some(InfoProperty)
    else if name == Name(ProductProperty) then Some(ProductProperty)
    else if name == Name(UpfrontFeeProperty) then Some(UpfrontFeeProperty)
    else None
  }

  /**
    The property the generated `switch (propertyName.hashCode())` selects, with
    the case labels as written: a name is matched by its hash code alone.
   */
  function Switched(name: string): (r: Option<Property>)
    ensures r.None? <==> forall p :: JavaString.HashCode(name) != JavaString.HashCode(Name(p))
    ensures r.Some? ==> JavaString.HashCode(name) == JavaString.HashCode(Name(r.value))
    ensures forall p :: JavaString.HashCode(name) == JavaString.HashCode(Name(p)) ==> r == Some(p)
  {
    SwitchLabels();
    var h := JavaString.HashCode(name);
    if h == 3237038 then Some(InfoProperty)
    else if h == -309474065 then Some(ProductProperty)
    else if h == 963468344 then Some(UpfrontFeeProperty)
    else None
  }

  /** Whether the cast `(T) value` to the class of property `p` succeeds; a null casts to every class. */
  predicate Accepts(p: Property, v: Value) {
    match v
    case NullValue => true
    case InfoValue(_) => p == InfoProperty
    case ProductValue(_) => p == ProductProperty
    case PaymentValue(_) => p == UpfrontFeeProperty
    case OtherValue => false
  }

  /** The builder field of property `p`, as the `Object` the name-keyed getter returns. */
  function FieldValue(b: Builder, p: Property): (v: Value)
    ensures Accepts(p, v)
  {
    match p
    case InfoProperty => if b.info.NonNull? then InfoValue(b.info.get) else NullValue
    case ProductProperty => if b.product.NonNull? then ProductValue(b.product.get) else NullValue
    case UpfrontFeeProperty => if b.upfrontFee.NonNull? then PaymentValue(b.upfrontFee.get) else NullValue
  }

  /**
    One case of the name-keyed setter: cast, then assign with no null check. On
    success the named field holds the value (null included) and no other field moves.
   */
  function Assign(b: Builder, p: Property, v: Value): (r: Result<Builder, Exception>)
    ensures r.Ok? <==> Accepts(p, v)
    ensures r.Ok? ==> FieldValue(r.value, p) == v
    ensures r.Ok? ==> forall q :: q != p ==> FieldValue(r.value, q) == FieldValue(b, q)
    ensures r.Err? ==> r.error == ClassCast(Name(p))
  {
    match (p, v)
    case (InfoProperty, NullValue) => Ok(b.(info := Null))
    case (InfoProperty, InfoValue(i)) => Ok(b.(info := NonNull(i)))
    case (ProductProperty, NullValue) => Ok(b.(product := Null))
    case (ProductProperty, ProductValue(c)) => Ok(b.(product := NonNull(c)))
    case (UpfrontFeeProperty, NullValue) => Ok(b.(upfrontFee := Null))
    case (UpfrontFeeProperty, PaymentValue(f)) => Ok(b.(upfrontFee := NonNull(f)))
    case _ => Err(ClassCast(Name(p)))
  }

  /**
    `set(String, Object)` dispatching on the exact property name: an unknown
    name or a value of the wrong class throws and leaves the builder alone;
    otherwise the named field takes the value, null included, and nothing else
    changes.
   */
  function SetProperty(b: Builder, name: string, v: Value): (r: Step<Builder>)
    ensures (forall p :: Name(p) != name) ==> r == Step(b, Some(NoSuchElement(name)))
    ensures forall p :: Name(p) == name && !Accepts(p, v) ==> r == Step(b, Some(ClassCast(name)))
    ensures forall p :: Name(p) == name && Accepts(p, v) ==>
      && r.thrown.None?
      && FieldValue(r.state, p) == v
      && forall q :: q != p ==> FieldValue(r.state, q) == FieldValue(b, q)
  {
    SetSelected(b, name, Named(name), p => Assign(b, p, v))
  }

  /**
    `set(String, Object)` as written: the property is chosen by the name's hash
    code. A name whose hash is no property's throws; a name sharing the hash of
    property `p` (the labels are distinct, so there is one such `p`) casts and
    assigns to `p` exactly as `p`'s own name would; a throw leaves the builder alone.
   */
  function SetPropertyAsWritten(b: Builder, name: string, v: Value): (r: Step<Builder>)
    ensures (forall p :: JavaString.HashCode(name) != JavaString.HashCode(Name(p))) ==>
      r == Step(b, Some(NoSuchElement(name)))
    ensures forall p :: JavaString.HashCode(name) == JavaString.HashCode(Name(p)) && !Accepts(p, v) ==>
      r == Step(b, Some(ClassCast(Name(p))))
    ensures forall p :: JavaString.HashCode(name) == JavaString.HashCode(Name(p)) && Accepts(p, v) ==>
      && r.thrown.None?
      && FieldValue(r.state, p) == v
      && forall q :: q != p ==> FieldValue(r.state, q) == FieldValue(b, q)
    ensures r.thrown.Some? ==> r.state == b
  {
    SetSelected(b, name, Switched(name), p => Assign(b, p, v))
  }

  /** `get(String)` dispatching on the exact property name. */
  function GetProperty(b: Builder, name: string): (r: Result<Value, Exception>)
    ensures (forall p :: Name(p) != name) ==> r == Err(NoSuchElement(name))
    ensures forall p :: Name(p) == name ==> r == Ok(FieldValue(b, p))
  {
    GetSelected(name, Named(name), p => FieldValue(b, p))
  }

  /**
    `get(String)` as written: the property is chosen by the name's hash code, so
    any name sharing the hash of property `p` reads `p`'s field.
   */
  function GetPropertyAsWritten(b: Builder, name: string): (r: Result<Value, Exception>)
    ensures (forall p :: JavaString.HashCode(name) != JavaString.HashCode(Name(p))) ==> r == Err(NoSuchElement(name))
    ensures forall p :: JavaString.HashCode(name) == JavaString.HashCode(Name(p)) ==> r == Ok(FieldValue(b, p))
  {
    GetSelected(name, Switched(name), p => FieldValue(b, p))
  }

  //---------------------------------------------------------------------------
  // Properties relating several calls

  /** A built trade copies back into the very builder it was built from. */
  lemma BuildThenCopy(b: Builder)
    requires Build(b).Ok?
    ensures ToBuilder(Build(b).value) == b
  {
  }

  /** Copying and rebuilding keeps the fee exactly: absent stays absent, present stays the same payment. */
  lemma CopyKeepsFee(t: ResolvedCdsTrade)
    ensures Build(ToBuilder(t)).Ok?
    ensures GetUpfrontFee(Build(ToBuilder(t)).value) == GetUpfrontFee(t)
  {
  }

  /**
    A fresh builder already has its trade information, so setting the product
    alone is enough to build; the trade then has the empty information and no fee.
   */
  lemma FreshBuilderLifecycle(emptyInfo: TradeInfo, product: ResolvedCds, fee: Payment)
    ensures Build(NewBuilder(emptyInfo)) == Err(IllegalArgument("product"))
    ensures Build(SetProduct(NewBuilder(emptyInfo), NonNull(product)).state)
      == Ok(ResolvedCdsTrade(emptyInfo, product, Null))
    ensures Build(SetUpfrontFee(NewBuilder(emptyInfo), NonNull(fee)).state) == Err(IllegalArgument("product"))
    ensures GetUpfrontFee(Build(SetProduct(NewBuilder(emptyInfo), NonNull(product)).state).value).None?
  {
  }

  /** The fee never decides whether a build succeeds, and clearing it only clears it. */
  lemma FeeNeverBlocksBuild(b: Builder, fee: Nullable<Payment>)
    ensures Build(SetUpfrontFee(b, fee).state).Ok? <==> Build(b).Ok?
    ensures Build(b).Ok? ==> Build(SetUpfrontFee(b, Null).state) == Ok(Build(b).value.(upfrontFee := Null))
  {
  }

  /**
    On a non-null value the typed setters and the name-keyed setter do the same
    thing; for the fee they agree on null too, since neither checks it.
   */
  lemma TypedSettersAgreeWithNamed(b: Builder, info: TradeInfo, product: ResolvedCds, fee: Payment)
    ensures SetInfo(b, NonNull(info)) == SetProperty(b, "info", InfoValue(info))
    ensures SetProduct(b, NonNull(product)) == SetProperty(b, "product", ProductValue(product))
    ensures SetUpfrontFee(b, NonNull(fee)) == SetProperty(b, "upfrontFee", PaymentValue(fee))
    ensures SetUpfrontFee(b, Null) == SetProperty(b, "upfrontFee", NullValue)
  {
  }

  /**
    A null `info` or `product` passes the name-keyed setter, where the typed
    setter rejects it; the build is what then fails.
   */
  lemma NamedSetterDefersNullCheck(b: Builder)
    ensures SetInfo(b, Null).thrown == Some(IllegalArgument("info"))
    ensures SetProperty(b, "info", NullValue).thrown.None?
    ensures Build(SetProperty(b, "info", NullValue).state) == Err(IllegalArgument("info"))
    ensures SetProduct(b, Null).thrown == Some(IllegalArgument("product"))
    ensures SetProperty(b, "product", NullValue).thrown.None?
    ensures Build(SetProperty(b, "product", NullValue).state).Err?
  {
  }

  /** What the name-keyed setter stores, the name-keyed getter returns; other names read as before. */
  lemma GetAfterSet(b: Builder, name: string, v: Value, other: string)
    requires SetProperty(b, name, v).thrown.None?
    ensures GetProperty(SetProperty(b, name, v).state, name) == Ok(v)
    ensures other != name ==> GetProperty(SetProperty(b, name, v).state, other) == GetProperty(b, other)
  {
  }

  /**
    Two trades are equal exactly when info, product and fee are pairwise equal;
    in particular a trade without a fee never equals one with a fee.
   */
  lemma EqualityIsFieldwise(t: ResolvedCdsTrade, u: ResolvedCdsTrade, fee: Payment)
    ensures Equals(t, NonNull(u)) <==> t.info == u.info && t.product == u.product && t.upfrontFee == u.upfrontFee
    ensures Equals(t, NonNull(u)) == Equals(u, NonNull(t))
    ensures !Equals(t, Null)
    ensures !Equals(t.(upfrontFee := Null), NonNull(t.(upfrontFee := NonNull(fee))))
  {
  }

  //---------------------------------------------------------------------------
  // The hash-code switch

  /** The case labels of the generated switches are the hash codes of the three property names. */
  lemma SwitchLabels()
    ensures JavaString.HashCode(Name(InfoProperty)) == 3237038
    ensures JavaString.HashCode(Name(ProductProperty)) == -309474065
    ensures JavaString.HashCode(Name(UpfrontFeeProperty)) == 963468344
  {
    PropertyHashes.Info();
    PropertyHashes.Product();
    PropertyHashes.UpfrontFee();
  }

  /**
    The hash-code switch picks the right property for every real property name,
    and agrees with exact matching on every name whose hash is not a label.
   */
  lemma SwitchAgreesOffCollisions(b: Builder, name: string, v: Value)
    requires Named(name).Some? || forall p :: JavaString.HashCode(name) != JavaString.HashCode(Name(p))
    ensures Switched(name) == Named(name)
    ensures SetPropertyAsWritten(b, name, v) == SetProperty(b, name, v)
    ensures GetPropertyAsWritten(b, name) == GetProperty(b, name)
  {
    SwitchLabels();
  }

  /**
    A name that is not a property but shares the hash code of "info" is routed
    to `info` by the switch as written, where exact matching rejects it: so the
    name-keyed setter can null out `info` under a name the bean does not have.
   */
  lemma CollidingNameReachesInfo(b: Builder)
    ensures Named("jOfo").None?
    ensures Switched("jOfo") == Some(InfoProperty)
    ensures SetProperty(b, "jOfo", NullValue) == Step(b, Some(NoSuchElement("jOfo")))
    ensures SetPropertyAsWritten(b, "jOfo", NullValue) == Step(b.(info := Null), None)
    ensures GetPropertyAsWritten(b, "jOfo") == Ok(FieldValue(b, InfoProperty))
  {
    assert "info" == [] + ['i', 'n'] + "fo";
    assert "jOfo" == [] + ['j', 'O'] + "fo";
    JavaString.AdjacentPairCollision([], 'i', 'n', 'j', 'O', "fo");
  }

  /**
    The switch hashes UTF-16 code units, so a character above U+FFFF counts as
    its surrogate pair: this name, opening with U+10000, has the hash code of
    "info" and is routed to `info` by the switch as written.
   */
  lemma SupplementaryNameReachesInfo(b: Builder, i: TradeInfo)
    ensures Named("\U{10000} \U{ADCD}\U{D7EF}\U{D7EA}\U{D7F6}").None?
    ensures Switched("\U{10000} \U{ADCD}\U{D7EF}\U{D7EA}\U{D7F6}") == Some(InfoProperty)
    ensures SetPropertyAsWritten(b, "\U{10000} \U{ADCD}\U{D7EF}\U{D7EA}\U{D7F6}", InfoValue(i))
      == Step(b.(info := NonNull(i)), None)
    ensures GetPropertyAsWritten(b, "\U{10000} \U{ADCD}\U{D7EF}\U{D7EA}\U{D7F6}") == Ok(FieldValue(b, InfoProperty))
  {
    PropertyHashes.SupplementaryInfoName();
  }
}
