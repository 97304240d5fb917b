/**
 * The secured-fields provider's event handlers. Each handler applies one
 * event from the secured-field frames to the card component's state record,
 * may refuse it, and emits callbacks to the merchant. A `setState` is
 * modelled as an immediate commit: the state is replaced and the entries its
 * completion callback emits are appended to `trace`. The load timeout is an
 * explicit "timer fired" event.
 */
module SecuredFieldsHandlers {
  import opened Common

  const ENCRYPTED_CARD_NUMBER := "encryptedCardNumber"
  const ENCRYPTED_SECURITY_CODE := "encryptedSecurityCode"
  const ENCRYPTED_EXPIRY_DATE := "encryptedExpiryDate"
  const ENCRYPTED_EXPIRY_MONTH := "encryptedExpiryMonth"
  const ENCRYPTED_EXPIRY_YEAR := "encryptedExpiryYear"

  datatype Policy = Required | Optional | Hidden
  datatype Status = Loading | Ready | OriginKeyError

  /**
   * A value of the `errors` object: `false`, or an error code. A field whose
   * entry is null or undefined has no key in the map.
   */
  datatype ErrorValue = NoError | ErrorCode(code: string)

  /** The component state the handlers update. */
  datatype CardState = CardState(
    data: map<string, Option<string>>,       // encrypted blob per encrypted field name (None: undefined)
    valid: map<string, bool>,                // validity per encrypted field name
    errors: map<string, ErrorValue>,         // error per field type
    brand: string,
    cvcPolicy: Policy,
    expiryDatePolicy: Policy,
    showSocialSecurityNumber: Option<bool>,
    hasUnsupportedCard: bool,
    isSfpValid: bool,
    status: Status,
    autoCompleteName: Option<string>)

  // ---------------------------------------------------------------- events and callbacks

  datatype FieldValidEvent = FieldValidEvent(fieldType: string, encryptedFieldName: string, blob: Option<string>, valid: bool)
  datatype BrandEvent = BrandEvent(brand: string, cvcPolicy: Option<Policy>, expiryDatePolicy: Option<Policy>,
                                   showSocialSecurityNumber: Option<bool>)
  datatype ErrorEvent = ErrorEvent(fieldType: string, error: Option<string>)
  datatype FocusEvent = FocusEvent(fieldType: string, numChars: int, focus: bool)
  datatype AutoCompleteEvent = AutoCompleteEvent(fieldType: string, value: string)

  /** What the handlers emit, in order. Payloads forwarded untouched are opaque strings. */
  datatype Callback =
    | OnLoad(payload: string)
    | OnConfigSuccess(payload: string)
    | OnChange(state: CardState)
    | OnChangeNoDataRequired                    // onChange({ isSfpValid: true })
    | OnAllValid(allValid: bool)
    | OnFieldValid(field: FieldValidEvent)
    | OnBrand(info: BrandEvent, brandImageUrl: string)
    | OnError(error: string, fieldType: string)
    | OnFocus(focusEvent: FocusEvent)
    | OnAutoComplete(autoCompleteEvent: AutoCompleteEvent)

  /** A merchant's `brandsConfiguration` entry. */
  datatype BrandConfiguration = BrandConfiguration(icon: Option<string>)

  // ---------------------------------------------------------------- state updaters

  /** The brand's policy makes the field non-mandatory and the field was last seen empty. */
  predicate Forgiven(fieldType: string, policy: Option<Policy>, numChars: map<string, int>)
  {
    (policy == Some(Optional) || policy == Some(Hidden)) && Get(numChars, fieldType) == Some(0)
  }

  /**
   * fieldIsInError: `false` for a field the new brand forgives, otherwise
   * the field's recorded error (None where that is undefined).
   */
  function FieldIsInError(fieldType: string, policy: Option<Policy>, numChars: map<string, int>,
                          errors: map<string, ErrorValue>): (r: Option<ErrorValue>)
    ensures Forgiven(fieldType, policy, numChars) ==> r == Some(NoError)
    ensures !Forgiven(fieldType, policy, numChars) ==> r == Get(errors, fieldType)
    ensures r.None? <==> !Forgiven(fieldType, policy, numChars) && fieldType !in errors
  {
    if (policy == Some(Optional) || policy == Some(Hidden)) && Get(numChars, fieldType) == Some(0)
    then Some(NoError)
    else Get(errors, fieldType)
  }

  /** `{ ...errors, ...(existy(v) && { [key]: v }) }` */
  function PutIfExisty(errors: map<string, ErrorValue>, key: string, v: Option<ErrorValue>): (r: map<string, ErrorValue>)
  {
    if v.Some? then errors[key := v.value] else errors
  }

  /** The error keys handleOnBrand may rewrite, for a form with `numDateFields` date fields. */
  function BrandErrorKeys(numDateFields: int): (keys: set<string>)
  {
    {ENCRYPTED_SECURITY_CODE}
    + (if numDateFields == 1 then {ENCRYPTED_EXPIRY_DATE} else {})
    + (if numDateFields == 2 then {ENCRYPTED_EXPIRY_MONTH, ENCRYPTED_EXPIRY_YEAR} else {})
  }

  /** The brand's policy that governs an error key: the cvc policy for the security code, else the date policy. */
  function PolicyFor(key: string, info: BrandEvent): (policy: Option<Policy>)
  {
    if key == ENCRYPTED_SECURITY_CODE then info.cvcPolicy else info.expiryDatePolicy
  }

  /** The updater handleOnBrand passes to setState. */
  function BrandUpdate(prev: CardState, info: BrandEvent, numChars: map<string, int>, numDateFields: int): (next: CardState)
    ensures next.brand == info.brand
    ensures next.cvcPolicy == info.cvcPolicy.GetOr(Required)
    ensures next.expiryDatePolicy == info.expiryDatePolicy.GetOr(Required)
    ensures next.showSocialSecurityNumber == info.showSocialSecurityNumber
    // an error key is cleared only when it is one the brand governs and the brand forgives it
    ensures forall k ::
              Get(next.errors, k) ==
                if k in BrandErrorKeys(numDateFields) && Forgiven(k, PolicyFor(k, info), numChars)
                then Some(NoError) else Get(prev.errors, k)
    // nothing else changes
    ensures next.(brand := prev.brand, cvcPolicy := prev.cvcPolicy, expiryDatePolicy := prev.expiryDatePolicy,
                  showSocialSecurityNumber := prev.showSocialSecurityNumber, errors := prev.errors) == prev
  {
    var cvcFieldInError := FieldIsInError(ENCRYPTED_SECURITY_CODE, info.cvcPolicy, numChars, prev.errors);
    var dateFieldInError :=
      if numDateFields == 1 then FieldIsInError(ENCRYPTED_EXPIRY_DATE, info.expiryDatePolicy, numChars, prev.errors) else None;
    var monthFieldInError :=
      if numDateFields == 2 then FieldIsInError(ENCRYPTED_EXPIRY_MONTH, info.expiryDatePolicy, numChars, prev.errors) else None;
    var yearFieldInError :=
      if numDateFields == 2 then FieldIsInError(ENCRYPTED_EXPIRY_YEAR, info.expiryDatePolicy, numChars, prev.errors) else None;
    var errors :=
      PutIfExisty(PutIfExisty(PutIfExisty(PutIfExisty(prev.errors,
        ENCRYPTED_SECURITY_CODE, cvcFieldInError),
        ENCRYPTED_EXPIRY_DATE, dateFieldInError),
        ENCRYPTED_EXPIRY_MONTH, monthFieldInError),
        ENCRYPTED_EXPIRY_YEAR, yearFieldInError);
    prev.(brand := info.brand,
          cvcPolicy := info.cvcPolicy.GetOr(Required),
          showSocialSecurityNumber := info.showSocialSecurityNumber,
          errors := errors,
          expiryDatePolicy := info.expiryDatePolicy.GetOr(Required))
  }

  /** The updater handleOnFieldValid passes to setState. */
  function FieldValidUpdate(prev: CardState, field: FieldValidEvent): (next: CardState)
    ensures Get(next.data, field.encryptedFieldName) == Some(field.blob)
    ensures Get(next.valid, field.encryptedFieldName) == Some(field.valid)
    ensures forall k :: k != field.encryptedFieldName ==> Get(next.data, k) == Get(prev.data, k) && Get(next.valid, k) == Get(prev.valid, k)
    // an existing error is kept, whatever the new validity; only a missing one becomes `false`
    ensures Get(next.errors, field.fieldType) == Some(Get(prev.errors, field.fieldType).GetOr(NoError))
    ensures forall k :: k != field.fieldType ==> Get(next.errors, k) == Get(prev.errors, k)
    ensures next.(data := prev.data, valid := prev.valid, errors := prev.errors) == prev
  {
    prev.(data := prev.data[field.encryptedFieldName := field.blob],
          valid := prev.valid[field.encryptedFieldName := field.valid],
          errors := prev.errors[field.fieldType := Get(prev.errors, field.fieldType).GetOr(NoError)])
  }

  /** The updater handleOnError passes to setState; `hasUnsupportedCard` None is the omitted argument. */
  function ErrorUpdate(prev: CardState, event: ErrorEvent, hasUnsupportedCard: Option<bool>): (next: CardState)
    ensures Get(next.errors, event.fieldType) == Some(if Truthy(event.error) then ErrorCode(event.error.value) else NoError)
    ensures forall k :: k != event.fieldType ==> Get(next.errors, k) == Get(prev.errors, k)
    ensures next.hasUnsupportedCard == (hasUnsupportedCard == Some(true))
    // an unsupported card wipes the card number and the overall validity
    ensures hasUnsupportedCard == Some(true) ==>
      && Get(next.data, ENCRYPTED_CARD_NUMBER) == Some(None)
      && Get(next.valid, ENCRYPTED_CARD_NUMBER) == Some(false)
      && !next.isSfpValid
      && (forall k :: k != ENCRYPTED_CARD_NUMBER ==> Get(next.data, k) == Get(prev.data, k) && Get(next.valid, k) == Get(prev.valid, k))
    ensures hasUnsupportedCard != Some(true) ==>
      next.data == prev.data && next.valid == prev.valid && next.isSfpValid == prev.isSfpValid
    ensures next.(errors := prev.errors, hasUnsupportedCard := prev.hasUnsupportedCard,
                  data := prev.data, valid := prev.valid, isSfpValid := prev.isSfpValid) == prev
  {
    var errorCode := event.error;
    var unsupported := hasUnsupportedCard == Some(true);
    prev.(errors := prev.errors[event.fieldType := if Truthy(errorCode) then ErrorCode(errorCode.value) else NoError],
          hasUnsupportedCard := if hasUnsupportedCard.Some? then hasUnsupportedCard.value else false,
          data := if unsupported then prev.data[ENCRYPTED_CARD_NUMBER := None] else prev.data,
          valid := if unsupported then prev.valid[ENCRYPTED_CARD_NUMBER := false] else prev.valid,
          isSfpValid := if unsupported then false else prev.isSfpValid)
  }

  /**
   * While an unsupported card is flagged, the form is not valid and the card
   * number holds no blob and is marked invalid.
   */
  predicate UnsupportedCardCleared(s: CardState)
  {
    s.hasUnsupportedCard ==>
      !s.isSfpValid && Get(s.data, ENCRYPTED_CARD_NUMBER) == Some(None) && Get(s.valid, ENCRYPTED_CARD_NUMBER) == Some(false)
  }

  // ---------------------------------------------------------------- the provider

  class SecuredFieldsProvider {
    var state: CardState
    /** Last reported character count per field type, written on focus events only. */
    var numCharsInField: map<string, int>
    /** The handle of the last timeout armed by handleOnLoad. */
    var originKeyErrorTimeout: Option<nat>
    /** Timeouts armed and neither fired nor cleared. */
    var pendingTimeouts: set<nat>
    var nextTimeoutId: nat
    /** The callbacks emitted so far, oldest first. */
    var trace: seq<Callback>

    const numDateFields: int
    const brandsConfiguration: map<string, BrandConfiguration>
    const loadingContext: string
    /** getCardImageUrl(brand, loadingContext) of the secured-fields utilities. */
    const cardImageUrl: (string, string) -> string

    ghost predicate Valid()
      reads this
    {
      (forall t :: t in pendingTimeouts ==> t < nextTimeoutId) &&
      (originKeyErrorTimeout.Some? ==> originKeyErrorTimeout.value < nextTimeoutId)
    }

    constructor (initial: CardState, numDateFields: int, brandsConfiguration: map<string, BrandConfiguration>,
                 loadingContext: string, cardImageUrl: (string, string) -> string)
      ensures Valid()
      ensures state == initial && numCharsInField == map[] && trace == []
      ensures originKeyErrorTimeout == None && pendingTimeouts == {}
      ensures this.numDateFields == numDateFields && this.brandsConfiguration == brandsConfiguration
      ensures this.loadingContext == loadingContext && this.cardImageUrl == cardImageUrl
    {
      state := initial;
      numCharsInField := map[];
      originKeyErrorTimeout := None;
      pendingTimeouts := {};
      nextTimeoutId := 0;
      trace := [];
      this.numDateFields := numDateFields;
      this.brandsConfiguration := brandsConfiguration;
      this.loadingContext := loadingContext;
      this.cardImageUrl := cardImageUrl;
    }

    /** The icon sent with onBrand: the merchant's configured icon wins over the default one. */
    function BrandImageUrl(brand: string): (url: string)
      ensures brand in brandsConfiguration && brandsConfiguration[brand].icon.Some? ==>
        url == brandsConfiguration[brand].icon.value
      ensures !(brand in brandsConfiguration && brandsConfiguration[brand].icon.Some?) ==>
        url == cardImageUrl(brand, loadingContext)
    {
      if brand in brandsConfiguration && brandsConfiguration[brand].icon.Some?
      then brandsConfiguration[brand].icon.value
      else cardImageUrl(brand, loadingContext)
    }

    /** handleOnLoad: forwards the event, then arms the origin-key timeout. */
    method HandleOnLoad(payload: string)
      requires Valid()
      modifies this`trace, this`originKeyErrorTimeout, this`pendingTimeouts, this`nextTimeoutId
      ensures Valid()
      ensures trace == old(trace) + [OnLoad(payload)]
      ensures originKeyErrorTimeout == Some(old(nextTimeoutId)) && old(nextTimeoutId) !in old(pendingTimeouts)
      ensures pendingTimeouts == old(pendingTimeouts) + {old(nextTimeoutId)}
    {
      trace := trace + [OnLoad(payload)];
      originKeyErrorTimeout := Some(nextTimeoutId);
      pendingTimeouts := pendingTimeouts + {nextTimeoutId};
      nextTimeoutId := nextTimeoutId + 1;
    }

    /**
     * The timeout callback armed by handleOnLoad, when timer `id` fires: if
     * the status has not reached ready, it becomes originKeyError and one
     * onError is emitted. A cleared or already fired timer does nothing.
     */
    method OriginKeyTimeoutFires(id: nat)
      requires Valid()
      modifies this`state, this`trace, this`pendingTimeouts
      ensures Valid()
      ensures pendingTimeouts == old(pendingTimeouts) - {id}
      ensures id in old(pendingTimeouts) && old(state.status) != Ready ==>
        state == old(state).(status := OriginKeyError) && trace == old(trace) + [OnError("originKeyError", "defaultError")]
      ensures !(id in old(pendingTimeouts) && old(state.status) != Ready) ==>
        state == old(state) && trace == old(trace)
    {
      if id in pendingTimeouts {
        pendingTimeouts := pendingTimeouts - {id};
        if state.status != Ready {
          state := state.(status := OriginKeyError);
          trace := trace + [OnError("originKeyError", "defaultError")];
        }
      }
    }

    /** handleOnConfigSuccess: clears the last armed timeout, sets ready whatever the status was, then forwards. */
    method HandleOnConfigSuccess(payload: string)
      requires Valid()
      modifies this`state, this`trace, this`pendingTimeouts
      ensures Valid()
      ensures pendingTimeouts == if originKeyErrorTimeout.Some? then old(pendingTimeouts) - {originKeyErrorTimeout.value} else old(pendingTimeouts)
      ensures state == old(state).(status := Ready)
      ensures trace == old(trace) + [OnConfigSuccess(payload)]
    {
      if originKeyErrorTimeout.Some? {
        pendingTimeouts := pendingTimeouts - {originKeyErrorTimeout.value};
      }
      state := state.(status := Ready);
      trace := trace + [OnConfigSuccess(payload)];
    }

    /** handleOnAllValid: refused while the card is unsupported. */
    method HandleOnAllValid(allValid: bool) returns (applied: bool)
      modifies this`state, this`trace
      ensures applied == !old(state.hasUnsupportedCard)
      ensures !applied ==> state == old(state) && trace == old(trace)
      ensures applied ==> state == old(state).(isSfpValid := allValid)
                          && trace == old(trace) + [OnChange(state), OnAllValid(allValid)]
      ensures UnsupportedCardCleared(old(state)) ==> UnsupportedCardCleared(state)
    {
      if state.hasUnsupportedCard {
        return false;
      }
      state := state.(isSfpValid := allValid);
      trace := trace + [OnChange(state), OnAllValid(allValid)];
      return true;
    }

    /** handleOnFieldValid: the card-number field is refused while the card is unsupported. */
    method HandleOnFieldValid(field: FieldValidEvent) returns (applied: bool)
      modifies this`state, this`trace
      ensures applied == !(old(state.hasUnsupportedCard) && field.fieldType == ENCRYPTED_CARD_NUMBER)
      ensures !applied ==> state == old(state) && trace == old(trace)
      ensures applied ==> state == FieldValidUpdate(old(state), field)
                          && trace == old(trace) + [OnChange(state), OnFieldValid(field)]
      ensures UnsupportedCardCleared(old(state)) && (field.encryptedFieldName == ENCRYPTED_CARD_NUMBER ==> field.fieldType == ENCRYPTED_CARD_NUMBER)
              ==> UnsupportedCardCleared(state)
    {
      if state.hasUnsupportedCard && field.fieldType == ENCRYPTED_CARD_NUMBER {
        return false;
      }
      state := FieldValidUpdate(state, field);
      trace := trace + [OnChange(state), OnFieldValid(field)];
      return true;
    }

    /** handleOnBrand: forgives errors the new brand makes impossible, then emits onChange and onBrand. */
    method HandleOnBrand(info: BrandEvent)
      modifies this`state, this`trace
      ensures state == BrandUpdate(old(state), info, numCharsInField, numDateFields)
      ensures trace == old(trace) + [OnChange(state), OnBrand(info, BrandImageUrl(info.brand))]
      ensures UnsupportedCardCleared(old(state)) ==> UnsupportedCardCleared(state)
    {
      state := BrandUpdate(state, info, numCharsInField, numDateFields);
      var brandImageUrl := BrandImageUrl(info.brand);
      trace := trace + [OnChange(state), OnBrand(info, brandImageUrl)];
    }

    /** handleOnError: always applied; `hasUnsupportedCard` None is the omitted argument. */
    method HandleOnError(event: ErrorEvent, hasUnsupportedCard: Option<bool>) returns (applied: bool)
      modifies this`state, this`trace
      ensures applied
      ensures state == ErrorUpdate(old(state), event, hasUnsupportedCard)
      ensures trace == old(trace) + [OnChange(state)]
      ensures UnsupportedCardCleared(state)
    {
      state := ErrorUpdate(state, event, hasUnsupportedCard);
      trace := trace + [OnChange(state)];
      return true;
    }

    /** handleFocus: records the field's character count; the component state is untouched. */
    method HandleFocus(event: FocusEvent)
      modifies this`numCharsInField, this`trace
      ensures numCharsInField == old(numCharsInField)[event.fieldType := event.numChars]
      ensures trace == old(trace) + [OnFocus(event)]
    {
      numCharsInField := numCharsInField[event.fieldType := event.numChars];
      trace := trace + [OnFocus(event)];
    }

    /** handleOnAutoComplete: onChange sees the holder name once, then it is nulled again. */
    method HandleOnAutoComplete(event: AutoCompleteEvent)
      modifies this`state, this`trace
      ensures state == old(state).(autoCompleteName := None)
      ensures trace == old(trace) + [OnChange(old(state).(autoCompleteName := Some(event.value))), OnAutoComplete(event)]
    {
      state := state.(autoCompleteName := Some(event.value));
      trace := trace + [OnChange(state)];
      state := state.(autoCompleteName := None);
      trace := trace + [OnAutoComplete(event)];
    }

    /** handleOnNoDataRequired: ready, and a synthetic valid change. */
    method HandleOnNoDataRequired()
      modifies this`state, this`trace
      ensures state == old(state).(status := Ready)
      ensures trace == old(trace) + [OnChangeNoDataRequired]
    {
      state := state.(status := Ready);
      trace := trace + [OnChangeNoDataRequired];
    }
  }

  // ---------------------------------------------------------------- properties over several events

  /** A later onFieldValid reporting `valid: true` does not clear an error set before it. */
  lemma FieldValidKeepsReportedError(prev: CardState, event: ErrorEvent, field: FieldValidEvent)
    requires Truthy(event.error) && field.fieldType == event.fieldType
    ensures Get(FieldValidUpdate(ErrorUpdate(prev, event, None), field).errors, field.fieldType)
            == Some(ErrorCode(event.error.value))
  {
  }

  /** An onError clearing the field followed by onFieldValid leaves the field's error `false`. */
  lemma ClearedErrorStaysClearedOnFieldValid(prev: CardState, event: ErrorEvent, field: FieldValidEvent)
    requires !Truthy(event.error) && field.fieldType == event.fieldType
    ensures Get(FieldValidUpdate(ErrorUpdate(prev, event, None), field).errors, field.fieldType) == Some(NoError)
  {
  }

  /**
   * Brand change to a policy where the cvc is not required, with the cvc
   * field last seen empty: a cvc error is cleared; seen with characters, it stays.
   */
  lemma BrandChangeForgivesEmptyCvc(prev: CardState, info: BrandEvent, numChars: map<string, int>, numDateFields: int)
    requires info.cvcPolicy == Some(Optional) || info.cvcPolicy == Some(Hidden)
    ensures Get(numChars, ENCRYPTED_SECURITY_CODE) == Some(0) ==>
      Get(BrandUpdate(prev, info, numChars, numDateFields).errors, ENCRYPTED_SECURITY_CODE) == Some(NoError)
    ensures Get(numChars, ENCRYPTED_SECURITY_CODE) != Some(0) ==>
      Get(BrandUpdate(prev, info, numChars, numDateFields).errors, ENCRYPTED_SECURITY_CODE) == Get(prev.errors, ENCRYPTED_SECURITY_CODE)
  {
    assert ENCRYPTED_SECURITY_CODE in BrandErrorKeys(numDateFields);
  }

  /**
   * onLoad followed by onConfigSuccess before the timeout: when the timer
   * fires the status stays ready and no onError is emitted.
   */
  method ConfigSuccessBeforeTimeout(p: SecuredFieldsProvider, loadPayload: string, configPayload: string)
    requires p.Valid()
    modifies p
    ensures p.state == old(p.state).(status := Ready)
    ensures p.trace == old(p.trace) + [OnLoad(loadPayload), OnConfigSuccess(configPayload)]
  {
    p.HandleOnLoad(loadPayload);
    var timer := p.originKeyErrorTimeout.value;
    p.HandleOnConfigSuccess(configPayload);
    p.OriginKeyTimeoutFires(timer);
  }

  /**
   * onLoad with no onConfigSuccess: when the timer fires on a form still
   * loading, the status becomes originKeyError and exactly one onError is
   * emitted; the timer cannot fire a second time.
   */
  method TimeoutWithoutConfigSuccess(p: SecuredFieldsProvider, loadPayload: string)
    requires p.Valid() && p.state.status != Ready
    modifies p
    ensures p.state == old(p.state).(status := OriginKeyError)
    ensures p.trace == old(p.trace) + [OnLoad(loadPayload), OnError("originKeyError", "defaultError")]
  {
    p.HandleOnLoad(loadPayload);
    var timer := p.originKeyErrorTimeout.value;
    p.OriginKeyTimeoutFires(timer);
    p.OriginKeyTimeoutFires(timer);
  }

  /**
   * Two onLoad events with no onConfigSuccess: the second overwrites the kept
   * handle but the first timer stays armed, so both fire and each emits an
   * onError.
   */
  method TwoLoadsBothTimersFire(p: SecuredFieldsProvider, firstPayload: string, secondPayload: string)
    requires p.Valid() && p.state.status != Ready
    modifies p
    ensures p.state == old(p.state).(status := OriginKeyError)
    ensures p.trace == old(p.trace) + [OnLoad(firstPayload), OnLoad(secondPayload),
                                       OnError("originKeyError", "defaultError"), OnError("originKeyError", "defaultError")]
  {
    p.HandleOnLoad(firstPayload);
    var first := p.originKeyErrorTimeout.value;
    p.HandleOnLoad(secondPayload);
    var second := p.originKeyErrorTimeout.value;
    p.OriginKeyTimeoutFires(first);
    p.OriginKeyTimeoutFires(second);
  }
}
