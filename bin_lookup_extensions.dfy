/**
 * The bin-lookup extension of the card input: it turns a bin-lookup
 * response into the dual-brand selector state, the stored issuing country,
 * and at most one `processBinLookupResponse` message to the secured fields;
 * and it turns a shopper's brand choice in the selector into such a message.
 * createCardVariantSwitcher is a parameter of the component.
 */
module BinLookupExtensions {
  import opened Common

  // ---------------------------------------------------------------- lower-casing

  predicate IsUpper(c: char) { 'A' <= c <= 'Z' }

  function LowerChar(c: char): (d: char)
  {
    if IsUpper(c) then (c as int + ('a' as int - 'A' as int)) as char else c
  }

  /** String.prototype.toLowerCase on the ASCII letters. */
  function ToLower(s: string): (r: string)
    ensures |r| == |s|
    ensures forall i :: 0 <= i < |s| ==> !IsUpper(r[i])
    ensures forall i :: 0 <= i < |s| && !IsUpper(s[i]) ==> r[i] == s[i]
    ensures forall i :: 0 <= i < |s| && IsUpper(s[i]) ==> r[i] as int == s[i] as int + 32
  {
    if s == [] then [] else [LowerChar(s[0])] + ToLower(s[1..])
  }

  // ---------------------------------------------------------------- values

  /** A brand entry of a bin-lookup response. */
  datatype BrandObject = BrandObject(brand: string, cvcPolicy: Option<string>, expiryDatePolicy: Option<string>)

  /** One icon of the dual-brand selector. */
  datatype DualBrandSelectElement = DualBrandSelectElement(id: string, brandObject: BrandObject)

  /** What createCardVariantSwitcher returns. */
  datatype CardVariantSwitcher = CardVariantSwitcher(
    dualBrandSelectElements: seq<DualBrandSelectElement>, selectedBrandValue: string, leadBrand: BrandObject)

  /**
   * A bin-lookup response object. A property that is absent reads as None;
   * `otherKeys` counts the object's remaining own keys (including keys that
   * hold null or undefined), which matter only to the empty-object test.
   */
  datatype BinLookupResponse = BinLookupResponse(
    issuingCountryCode: Option<string>, supportedBrands: Option<seq<BrandObject>>, otherKeys: nat)

  /** `!binLookupResponse || !Object.keys(binLookupResponse).length` */
  predicate IsEmptyResponse(response: Option<BinLookupResponse>)
  {
    response.None? ||
    (response.value.issuingCountryCode.None? && response.value.supportedBrands.None? && response.value.otherKeys == 0)
  }

  /** The brands of a non-empty response, or [] when the property is missing. */
  function BrandsOf(response: Option<BinLookupResponse>): (brands: seq<BrandObject>)
  {
    if response.Some? && response.value.supportedBrands.Some? then response.value.supportedBrands.value else []
  }

  /** The issuing country kept by the component: the response's code lower-cased, or null. */
  function StoredIssuingCode(response: Option<BinLookupResponse>): (code: Option<string>)
    ensures code.Some? <==> response.Some? && Truthy(response.value.issuingCountryCode)
    ensures code.Some? ==> code.value == ToLower(response.value.issuingCountryCode.value)
  {
    if response.Some? && Truthy(response.value.issuingCountryCode)
    then Some(ToLower(response.value.issuingCountryCode.value))
    else None
  }

  /** A call of `sfp.current.processBinLookupResponse`. */
  datatype SfpMessage =
    | ResetBrand(response: Option<BinLookupResponse>, brand: Option<string>, cvcPolicy: Option<string>)
    | SupportedBrands(issuingCountryCode: Option<string>, supportedBrands: seq<BrandObject>)

  // ---------------------------------------------------------------- brand selection

  /** The brand objects of the selector elements whose brand is `value`, in element order. */
  function BrandObjectsFor(elements: seq<DualBrandSelectElement>, value: string): (r: seq<BrandObject>)
    ensures |r| <= |elements|
    ensures forall b :: b in r <==> b.brand == value && exists e :: e in elements && e.brandObject == b
  {
    if elements == [] then []
    else
      var init := elements[..|elements| - 1];
      var e := elements[|elements| - 1];
      assert forall x :: x in elements <==> x in init || x == e;
      BrandObjectsFor(init, value) + (if e.brandObject.brand == value then [e.brandObject] else [])
  }

  /** The reduce in handleDualBrandSelection: an accumulator pushed in element order. */
  method MatchingBrandObjects(elements: seq<DualBrandSelectElement>, value: string)
    returns (brandObjArr: seq<BrandObject>)
    ensures brandObjArr == BrandObjectsFor(elements, value)
  {
    brandObjArr := [];
    for i := 0 to |elements|
      invariant brandObjArr == BrandObjectsFor(elements[..i], value)
    {
      var item := elements[i];
      assert elements[..i + 1][..i] == elements[..i];
      if item.brandObject.brand == value {
        brandObjArr := brandObjArr + [item.brandObject];
      }
    }
    assert elements[..|elements|] == elements;
  }

  // ---------------------------------------------------------------- the extension

  class CardExtensions {
    /** The `type` prop: 'card' for the generic multi-brand card, otherwise a single brand. */
    const cardType: string
    /** The `cvcPolicy` prop (set for Bancontact only). */
    const cvcPolicy: Option<string>
    const createCardVariantSwitcher: seq<BrandObject> -> CardVariantSwitcher

    var dualBrandSelectElements: seq<DualBrandSelectElement>
    var selectedBrandValue: string
    var issuingCountryCode: Option<string>
    /** Every message sent to the secured fields so far, oldest first. */
    var sent: seq<SfpMessage>

    constructor (cardType: string, cvcPolicy: Option<string>, createCardVariantSwitcher: seq<BrandObject> -> CardVariantSwitcher)
      ensures this.cardType == cardType && this.cvcPolicy == cvcPolicy
      ensures this.createCardVariantSwitcher == createCardVariantSwitcher
      ensures dualBrandSelectElements == [] && selectedBrandValue == "" && issuingCountryCode == None && sent == []
    {
      this.cardType := cardType;
      this.cvcPolicy := cvcPolicy;
      this.createCardVariantSwitcher := createCardVariantSwitcher;
      dualBrandSelectElements := [];
      selectedBrandValue := "";
      issuingCountryCode := None;
      sent := [];
    }

    /** processBinLookup */
    method ProcessBinLookup(response: Option<BinLookupResponse>, isReset: bool)
      modifies this
      ensures issuingCountryCode == StoredIssuingCode(response)
      // an absent or empty response resets the selector and sends the reset brand
      ensures IsEmptyResponse(response) ==>
        && dualBrandSelectElements == [] && selectedBrandValue == ""
        && sent == old(sent) + [ResetBrand(response, if isReset && cardType != "card" then Some(cardType) else None, cvcPolicy)]
      // several brands: the switcher's selector, and only its lead brand is sent
      ensures !IsEmptyResponse(response) && |BrandsOf(response)| > 1 ==>
        var switcher := createCardVariantSwitcher(BrandsOf(response));
        && dualBrandSelectElements == switcher.dualBrandSelectElements
        && selectedBrandValue == switcher.selectedBrandValue
        && sent == old(sent) + [SupportedBrands(response.value.issuingCountryCode, [switcher.leadBrand])]
      // one brand: no selector, that brand selected and sent
      ensures !IsEmptyResponse(response) && |BrandsOf(response)| == 1 ==>
        && dualBrandSelectElements == [] && selectedBrandValue == BrandsOf(response)[0].brand
        && sent == old(sent) + [SupportedBrands(response.value.issuingCountryCode, BrandsOf(response))]
      // no brands: only the issuing country changes
      ensures !IsEmptyResponse(response) && BrandsOf(response) == [] ==>
        && dualBrandSelectElements == old(dualBrandSelectElements)
        && selectedBrandValue == old(selectedBrandValue)
        && sent == old(sent)
      ensures sent == old(sent) || (|sent| == |old(sent)| + 1 && sent[..|old(sent)|] == old(sent))
    {
      issuingCountryCode := StoredIssuingCode(response);

      if IsEmptyResponse(response) {
        dualBrandSelectElements := [];
        selectedBrandValue := "";
        var brandToReset := if isReset && cardType != "card" then Some(cardType) else None;
        sent := sent + [ResetBrand(response, brandToReset, cvcPolicy)];
        return;
      }

      var binLookupResponse := response.value;
      if binLookupResponse.supportedBrands.Some? && |binLookupResponse.supportedBrands.value| > 0 {
        var supportedBrands := binLookupResponse.supportedBrands.value;
        if |supportedBrands| > 1 {
          var switcherObj := createCardVariantSwitcher(supportedBrands);
          dualBrandSelectElements := switcherObj.dualBrandSelectElements;
          selectedBrandValue := switcherObj.selectedBrandValue;
          sent := sent + [SupportedBrands(binLookupResponse.issuingCountryCode, [switcherObj.leadBrand])];
        } else {
          dualBrandSelectElements := [];
          selectedBrandValue := "";
          selectedBrandValue := supportedBrands[0].brand;
          sent := sent + [SupportedBrands(binLookupResponse.issuingCountryCode, supportedBrands)];
        }
      }
    }

    /** handleDualBrandSelection, for a brand value given as a string. */
    method HandleDualBrandSelection(value: string)
      modifies this`selectedBrandValue, this`sent
      ensures selectedBrandValue == value
      ensures sent == old(sent) + [SupportedBrands(issuingCountryCode, BrandObjectsFor(dualBrandSelectElements, value))]
    {
      selectedBrandValue := value;
      var brandObjArr := MatchingBrandObjects(dualBrandSelectElements, value);
      sent := sent + [SupportedBrands(issuingCountryCode, brandObjArr)];
    }
  }
}
