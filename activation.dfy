/** Store activation: four step checks, their conjunction computed by a
    loop, and the five-field update written back to the store. */
module Activation {
  import opened Wrappers

  /** The frozen enumeration of activation steps. */
  datatype ActivationStep = ProfileComplete | MinOneProduct | ShippingRegistered | PaymentRegistered

  /** The name each step is stored under. */
  function StepName(step: ActivationStep): string {
    match step
    case ProfileComplete => "profileComplete"
    case MinOneProduct => "minOneProduct"
    case ShippingRegistered => "shippingRegistered"
    case PaymentRegistered => "paymentMethodRegistered"
  }

  /** The frozen enumeration maps distinct steps to distinct names. */
  lemma StepNamesDistinct(a: ActivationStep, b: ActivationStep)
    ensures StepName(a) == StepName(b) <==> a == b
  {
  }

  /** The update path of a step's flag in the store document. */
  function StepKey(step: ActivationStep): string {
    "activationSteps." + StepName(step)
  }

  const ActivationKey: string := "activation"

  /** The parts of a store's profile the checks read. */
  datatype ProfileData = ProfileData(title: string, description: string, tags: seq<string>, images: seq<string>)

  /** A store document: its id, its profile and
      `payment.paypal.common.merchantIdInPayPal` (absent or a string). */
  datatype StoreDocument = StoreDocument(id: string, profileData: ProfileData, merchantIdInPayPal: Option<string>)

  /** The product lookup by store id: the id of some product of the store,
      if there is one. */
  type ProductLookup = string -> Option<string>

  /** The values of the four steps. */
  datatype StepValues = StepValues(profileComplete: bool, minOneProduct: bool, shippingRegistered: bool, paymentMethodRegistered: bool) {
    function Get(step: ActivationStep): bool {
      match step
      case ProfileComplete => profileComplete
      case MinOneProduct => minOneProduct
      case ShippingRegistered => shippingRegistered
      case PaymentRegistered => paymentMethodRegistered
    }

    function With(step: ActivationStep, value: bool): (sv: StepValues)
      ensures sv.Get(step) == value
      ensures forall other :: other != step ==> sv.Get(other) == Get(other)
    {
      match step
      case ProfileComplete => this.(profileComplete := value)
      case MinOneProduct => this.(minOneProduct := value)
      case ShippingRegistered => this.(shippingRegistered := value)
      case PaymentRegistered => this.(paymentMethodRegistered := value)
    }
  }

  /** The update the routine writes: each step under its path, and the
      overall flag. */
  datatype UpdateCommand = UpdateCommand(storeId: string, fields: map<string, bool>)

  datatype ActivationError = NoStoreProvided

  // ---------------------------------------------------------------------
  // The step checks

  /** JavaScript's `.length` of a string: the number of UTF-16 code units,
      two for every character outside the Basic Multilingual Plane. */
  function Utf16Length(s: string): (n: nat)
    ensures |s| <= n <= 2 * |s|
    ensures n == |s| <==> forall i :: 0 <= i < |s| ==> (s[i] as int) < 0x1_0000
  {
    if |s| == 0 then 0
    else Utf16Length(s[..|s| - 1]) + (if (s[|s| - 1] as int) < 0x1_0000 then 1 else 2)
  }

  /** A title of five emoji has length 10 in JavaScript, enough for the
      title bound, although it holds only five characters. */
  lemma EmojiTitleLength()
    ensures Utf16Length("\U{1F600}\U{1F600}\U{1F600}\U{1F600}\U{1F600}") == 10
  {
    var title := "\U{1F600}\U{1F600}\U{1F600}\U{1F600}\U{1F600}";
    assert Utf16Length(title[..0]) == 0;
    assert title[..1][..0] == title[..0];
    assert Utf16Length(title[..1]) == 2;
    assert title[..2][..1] == title[..1];
    assert Utf16Length(title[..2]) == 4;
    assert title[..3][..2] == title[..2];
    assert Utf16Length(title[..3]) == 6;
    assert title[..4][..3] == title[..3];
    assert Utf16Length(title[..4]) == 8;
    assert title[..4] == title[..|title| - 1];
  }

  /** checkProfileComplete: title and description length (in UTF-16 code
      units) and tag count within their bounds. The image count is not
      checked. */
  predicate CheckProfileComplete(store: StoreDocument): (ok: bool)
    ensures ok <==>
      && 10 <= Utf16Length(store.profileData.title) <= 100
      && 100 <= Utf16Length(store.profileData.description) <= 1000
      && 1 <= |store.profileData.tags| <= 15
  {
    var p := store.profileData;
    var titleLength := Utf16Length(p.title);
    var descriptionLength := Utf16Length(p.description);
    if titleLength < 10 || titleLength > 100 then false
    else if descriptionLength < 100 || descriptionLength > 1000 then false
    else if |p.tags| < 1 || |p.tags| > 15 then false
    else true
  }

  /** The store's images play no part in profile completeness. */
  lemma ProfileCompleteIgnoresImages(store: StoreDocument, images: seq<string>)
    ensures CheckProfileComplete(store.(profileData := store.profileData.(images := images)))
         == CheckProfileComplete(store)
  {
  }

  /** checkMinOneProduct: the lookup by store id found a product. */
  predicate CheckMinOneProduct(storeId: string, findProduct: ProductLookup): (ok: bool)
    ensures ok <==> findProduct(storeId).Some?
  {
    match findProduct(storeId)
    case None => false
    case Some(_) => true
  }

  /** checkShippingRegistered: a placeholder that accepts every store. */
  predicate CheckShippingRegistered(store: StoreDocument): (ok: bool)
    ensures ok
  {
    true
  }

  /** checkPaymentMethodRegistered: the PayPal merchant id is truthy, that is
      present and not the empty string. */
  predicate CheckPaymentMethodRegistered(store: StoreDocument): (ok: bool)
    ensures ok <==> store.merchantIdInPayPal.Some? && |store.merchantIdInPayPal.value| > 0
  {
    match store.merchantIdInPayPal
    case None => false
    case Some(id) => id != ""
  }

  // ---------------------------------------------------------------------
  // The overall flag and the update

  /** getGeneralActivationStatusValue: true exactly when the array is
      non-empty and every element is true. */
  method GetGeneralActivationStatusValue(values: seq<bool>) returns (result: bool)
    ensures result <==> |values| > 0 && forall i :: 0 <= i < |values| ==> values[i]
  {
    result := false;
    var i := 0;
    while i < |values|
      invariant 0 <= i <= |values|
      invariant forall j :: 0 <= j < i ==> values[j]
      invariant result <==> i > 0
    {
      if !values[i] {
        result := false;
        break;
      } else {
        result := true;
      }
      i := i + 1;
    }
  }

  /** The fields the routine sets for the given step values. */
  function UpdateFields(sv: StepValues): map<string, bool> {
    map[StepKey(ProfileComplete) := sv.profileComplete,
        StepKey(MinOneProduct) := sv.minOneProduct,
        StepKey(ShippingRegistered) := sv.shippingRegistered,
        StepKey(PaymentRegistered) := sv.paymentMethodRegistered,
        ActivationKey := sv.profileComplete && sv.minOneProduct && sv.shippingRegistered && sv.paymentMethodRegistered]
  }

  /** The update has exactly five keys: one per step, holding that step's
      value, and `activation`, which is true exactly when every step is. */
  lemma UpdateFieldsShape(sv: StepValues)
    ensures UpdateFields(sv).Keys ==
      {StepKey(ProfileComplete), StepKey(MinOneProduct), StepKey(ShippingRegistered), StepKey(PaymentRegistered), ActivationKey}
    ensures |UpdateFields(sv)| == 5
    ensures forall step :: UpdateFields(sv)[StepKey(step)] == sv.Get(step)
    ensures UpdateFields(sv)[ActivationKey] <==> forall step :: sv.Get(step)
  {
    forall step
      ensures UpdateFields(sv)[StepKey(step)] == sv.Get(step)
    {
      match step
      case ProfileComplete =>
      case MinOneProduct =>
      case ShippingRegistered =>
      case PaymentRegistered =>
    }
    if forall step :: sv.Get(step) {
      assert sv.Get(ProfileComplete) && sv.Get(MinOneProduct) && sv.Get(ShippingRegistered) && sv.Get(PaymentRegistered);
    }
  }

  /** Setting any one step to false makes the store inactive. */
  lemma FailingStepDeactivates(sv: StepValues, step: ActivationStep)
    ensures !UpdateFields(sv.With(step, false))[ActivationKey]
  {
  }

  /** The step values of a store, as the routine computes them. */
  function EvaluateSteps(store: StoreDocument, findProduct: ProductLookup): StepValues {
    StepValues(CheckProfileComplete(store), CheckMinOneProduct(store.id, findProduct),
               CheckShippingRegistered(store), CheckPaymentMethodRegistered(store))
  }

  /** storeActivationRoutine: refuses a missing store without any update;
      otherwise evaluates the four steps, their conjunction, and the update
      of this store's five activation fields. */
  method StoreActivationRoutine(store: Option<StoreDocument>, findProduct: ProductLookup)
    returns (r: Result<UpdateCommand, ActivationError>)
    ensures store.None? ==> r == Failure(NoStoreProvided)
    ensures store.Some? ==> r.Success? && r.value.storeId == store.value.id
    ensures store.Some? ==> r.value.fields == UpdateFields(EvaluateSteps(store.value, findProduct))
    ensures store.Some? ==> r.value.fields[StepKey(ShippingRegistered)]
    ensures store.Some? ==> (r.value.fields[ActivationKey] <==>
      && CheckProfileComplete(store.value)
      && CheckMinOneProduct(store.value.id, findProduct)
      && CheckPaymentMethodRegistered(store.value))
  {
    if store.None? {
      return Failure(NoStoreProvided);
    }
    var s := store.value;
    var storeId := s.id;
    var profileCompleteValue := CheckProfileComplete(s);
    var minOneProductValue := CheckMinOneProduct(storeId, findProduct);
    var shippingValue := CheckShippingRegistered(s);
    var paymentMethodValue := CheckPaymentMethodRegistered(s);
    var stepValueArray := [profileCompleteValue, minOneProductValue, shippingValue, paymentMethodValue];
    var activationValue := GetGeneralActivationStatusValue(stepValueArray);
    assert activationValue == (profileCompleteValue && minOneProductValue && shippingValue && paymentMethodValue) by {
      assert stepValueArray[0] == profileCompleteValue && stepValueArray[1] == minOneProductValue;
      assert stepValueArray[2] == shippingValue && stepValueArray[3] == paymentMethodValue;
    }
    var updateObject: map<string, bool> := map[];
    updateObject := updateObject[StepKey(ProfileComplete) := profileCompleteValue];
    updateObject := updateObject[StepKey(MinOneProduct) := minOneProductValue];
    updateObject := updateObject[StepKey(ShippingRegistered) := shippingValue];
    updateObject := updateObject[StepKey(PaymentRegistered) := paymentMethodValue];
    updateObject := updateObject[ActivationKey := activationValue];
    r := Success(UpdateCommand(storeId, updateObject));
  }
}
