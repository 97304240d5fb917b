/**
 * The card input's layout and error-panel helpers: which field layout the
 * card form uses, how active errors are ordered for the error panel, which
 * translation key names a field, and which image type a brand icon uses.
 * The layout constants, the translation lookup `i18n.get` and `getImageUrl`
 * are parameters.
 */
module CardInputUtils {
  import opened Common
  import opened RankSort

  // ---------------------------------------------------------------- getCardImageUrl

  /** The `imageOptions` passed to getImageUrl. */
  datatype ImageOptions = ImageOptions(imageType: string, extension: string, loadingContext: string)

  /** The image type for a brand: 'nocard' for the generic card or a missing/empty brand. */
  function ImageType(brand: Option<string>): (t: string)
    ensures brand == Some("card") || !Truthy(brand) ==> t == "nocard"
    ensures brand != Some("card") && Truthy(brand) ==> t == brand.value
    ensures t != "" && t != "card"
  {
    if brand == Some("card") then "nocard"
    else if Truthy(brand) then brand.value
    else "nocard"
  }

  function GetCardImageUrl(brand: Option<string>, loadingContext: string,
                           getImageUrl: ImageOptions -> Option<string> -> string): (url: string)
    ensures brand == Some("card") || !Truthy(brand) ==>
      url == getImageUrl(ImageOptions("nocard", "svg", loadingContext))(brand)
    ensures brand != Some("card") && Truthy(brand) ==>
      url == getImageUrl(ImageOptions(brand.value, "svg", loadingContext))(brand)
  {
    var imageOptions := ImageOptions(ImageType(brand), "svg", loadingContext);
    getImageUrl(imageOptions)(brand)
  }

  // ---------------------------------------------------------------- getLayout

  /** The card-input props that getLayout reads. */
  datatype CardProps = CardProps(hasHolderName: bool, holderNameRequired: bool, positionHolderNameOnTop: bool)

  /** The nine layout constants, each an ordered list of field names. */
  datatype Layouts = Layouts(
    creditCard: seq<string>, creditCardNameTop: seq<string>, creditCardNameBottom: seq<string>,
    kcpCard: seq<string>, kcpCardNameTop: seq<string>, kcpCardNameBottom: seq<string>,
    ssnCard: seq<string>, ssnCardNameTop: seq<string>, ssnCardNameBottom: seq<string>)

  /**
   * One entry of a country's address schema: a field name, or a row of
   * `[fieldName, width]` pairs laid out side by side.
   */
  datatype SchemaEntry = Field(name: string) | Row(cells: seq<(string, int)>)

  /** An element of the schema after `flat(2)`: a field name or a width. */
  datatype FlatItem = Name(name: string) | Width(width: int)

  /** `schema.flat(2)`: rows are spread into their pairs and the pairs into their parts. */
  function Flat2(schema: seq<SchemaEntry>): (items: seq<FlatItem>)
  {
    if schema == [] then []
    else
      Flat2(schema[..|schema| - 1]) +
      match schema[|schema| - 1]
      case Field(n) => [Name(n)]
      case Row(cells) => FlatCells(cells)
  }

  function FlatCells(cells: seq<(string, int)>): (items: seq<FlatItem>)
  {
    if cells == [] then []
    else FlatCells(cells[..|cells| - 1]) + [Name(cells[|cells| - 1].0), Width(cells[|cells| - 1].1)]
  }

  /** `.filter(item => typeof item !== 'number')` */
  function DropWidths(items: seq<FlatItem>): (names: seq<string>)
  {
    if items == [] then []
    else DropWidths(items[..|items| - 1]) +
         match items[|items| - 1]
         case Name(n) => [n]
         case Width(_) => []
  }

  /** The address part of the layout: the schema flattened with its widths removed. */
  function AddressLayout(schema: seq<SchemaEntry>): (layout: seq<string>)
  {
    DropWidths(Flat2(schema))
  }

  /** The field names of an address schema in reading order, rows left to right. */
  function SchemaFieldNames(schema: seq<SchemaEntry>): (names: seq<string>)
  {
    if schema == [] then []
    else
      SchemaFieldNames(schema[..|schema| - 1]) +
      match schema[|schema| - 1]
      case Field(n) => [n]
      case Row(cells) => CellNames(cells)
  }

  function CellNames(cells: seq<(string, int)>): (names: seq<string>)
  {
    if cells == [] then [] else CellNames(cells[..|cells| - 1]) + [cells[|cells| - 1].0]
  }

  lemma {:induction false} DropWidthsAppend(a: seq<FlatItem>, b: seq<FlatItem>)
    ensures DropWidths(a + b) == DropWidths(a) + DropWidths(b)
  {
    if b != [] {
      assert (a + b)[..|a + b| - 1] == a + b[..|b| - 1];
      DropWidthsAppend(a, b[..|b| - 1]);
    } else {
      assert a + b == a;
    }
  }

  lemma {:induction false} CellsLoseOnlyWidths(cells: seq<(string, int)>)
    ensures DropWidths(FlatCells(cells)) == CellNames(cells)
  {
    if cells != [] {
      var last := cells[|cells| - 1];
      CellsLoseOnlyWidths(cells[..|cells| - 1]);
      DropWidthsAppend(FlatCells(cells[..|cells| - 1]), [Name(last.0), Width(last.1)]);
      assert [Name(last.0), Width(last.1)][..1] == [Name(last.0)];
      assert [Name(last.0)][..0] == [];
      assert DropWidths([Name(last.0)]) == [last.0];
      assert DropWidths([Name(last.0), Width(last.1)]) == [last.0];
    }
  }

  /** Flattening two levels and dropping the numbers yields exactly the schema's field names, in order. */
  lemma {:induction false} AddressLayoutIsFieldNames(schema: seq<SchemaEntry>)
    ensures AddressLayout(schema) == SchemaFieldNames(schema)
  {
    if schema != [] {
      var init := schema[..|schema| - 1];
      AddressLayoutIsFieldNames(init);
      match schema[|schema| - 1]
      case Field(n) =>
        DropWidthsAppend(Flat2(init), [Name(n)]);
        assert [Name(n)][..0] == [];
      case Row(cells) =>
        DropWidthsAppend(Flat2(init), FlatCells(cells));
        CellsLoseOnlyWidths(cells);
    }
  }

  /** The holder-name variant of a layout family: top or bottom only when a holder name is required. */
  function WithHolderName(props: CardProps, plain: seq<string>, nameTop: seq<string>, nameBottom: seq<string>): (layout: seq<string>)
  {
    if props.hasHolderName && props.holderNameRequired then
      (if props.positionHolderNameOnTop then nameTop else nameBottom)
    else plain
  }

  /**
   * getLayout. Country schemas win over everything (credit-card family plus
   * the address fields); otherwise the SSN family beats the KCP family, which
   * beats the plain credit-card family.
   */
  method GetLayout(props: CardProps, showKCP: bool, showBrazilianSSN: bool,
                   countrySpecificSchemas: Option<seq<SchemaEntry>>, layouts: Layouts)
    returns (layout: seq<string>)
    ensures countrySpecificSchemas.Some? ==>
      layout == WithHolderName(props, layouts.creditCard, layouts.creditCardNameTop, layouts.creditCardNameBottom)
                + SchemaFieldNames(countrySpecificSchemas.value)
    ensures countrySpecificSchemas.None? && showBrazilianSSN ==>
      layout == WithHolderName(props, layouts.ssnCard, layouts.ssnCardNameTop, layouts.ssnCardNameBottom)
    ensures countrySpecificSchemas.None? && !showBrazilianSSN && showKCP ==>
      layout == WithHolderName(props, layouts.kcpCard, layouts.kcpCardNameTop, layouts.kcpCardNameBottom)
    ensures countrySpecificSchemas.None? && !showBrazilianSSN && !showKCP ==>
      layout == WithHolderName(props, layouts.creditCard, layouts.creditCardNameTop, layouts.creditCardNameBottom)
  {
    layout := layouts.creditCard;
    var hasRequiredHolderName := props.hasHolderName && props.holderNameRequired;

    if hasRequiredHolderName {
      layout := if props.positionHolderNameOnTop then layouts.creditCardNameTop else layouts.creditCardNameBottom;
    }

    if showKCP {
      layout := layouts.kcpCard;
      if hasRequiredHolderName {
        layout := if props.positionHolderNameOnTop then layouts.kcpCardNameTop else layouts.kcpCardNameBottom;
      }
    }

    if showBrazilianSSN {
      layout := layouts.ssnCard;
      if hasRequiredHolderName {
        layout := if props.positionHolderNameOnTop then layouts.ssnCardNameTop else layouts.ssnCardNameBottom;
      }
    }

    if countrySpecificSchemas.Some? {
      var countryBasedAddressLayout := AddressLayout(countrySpecificSchemas.value);
      AddressLayoutIsFieldNames(countrySpecificSchemas.value);

      layout := layouts.creditCard + countryBasedAddressLayout;
      if hasRequiredHolderName {
        layout := if props.positionHolderNameOnTop
          then layouts.creditCardNameTop + countryBasedAddressLayout
          else layouts.creditCardNameBottom + countryBasedAddressLayout;
      }
    }
  }

  // ---------------------------------------------------------------- mapFieldKey

  predicate IsAddressField(key: string)
  {
    key == "street" || key == "houseNumberOrName" || key == "postalCode" ||
    key == "stateOrProvince" || key == "city" || key == "country"
  }

  /** The translation key of the secured-field label: ach and giftcard keep their own prefix. */
  function AriaLabelKey(key: string): (k: string)
    ensures key == "ach" || key == "giftcard" ==> k == key + "." + key + ".aria.label"
    ensures key != "ach" && key != "giftcard" ==> k == "creditCard." + key + ".aria.label"
  {
    var prefix := if key == "ach" || key == "giftcard" then key else "creditCard";
    prefix + "." + key + ".aria.label"
  }

  /** mapFieldKey: the translated label that names `key` in the error panel. */
  function MapFieldKey(key: string, i18n: string -> string, countrySpecificLabels: Option<map<string, string>>): (text: string)
    ensures key == "holderName" || key == "taxNumber" ==> text == i18n("creditCard." + key)
    ensures key == "socialSecurityNumber" ==> text == i18n("boleto." + key)
    ensures IsAddressField(key) && countrySpecificLabels.Some? && Truthy(Get(countrySpecificLabels.value, key))
            ==> text == i18n(countrySpecificLabels.value[key])
    ensures IsAddressField(key) && !(countrySpecificLabels.Some? && Truthy(Get(countrySpecificLabels.value, key)))
            ==> text == i18n(key)
    ensures key != "holderName" && key != "taxNumber" && key != "socialSecurityNumber" && !IsAddressField(key)
            ==> text == i18n(AriaLabelKey(key))
  {
    if key == "holderName" || key == "taxNumber" then i18n("creditCard." + key)
    else if key == "socialSecurityNumber" then i18n("boleto." + key)
    else if IsAddressField(key) then
      (if countrySpecificLabels.Some? && Truthy(Get(countrySpecificLabels.value, key))
       then i18n(countrySpecificLabels.value[key]) else i18n(key))
    else i18n(AriaLabelKey(key))
  }

  // ---------------------------------------------------------------- sortErrorsForPanel

  /**
   * The `errorI18n` property of an error object: not an own property, or
   * present holding undefined, null or a string.
   */
  datatype I18nProperty = Missing | Undefined | Null | Text(text: string)

  /** How a template literal renders a present `errorI18n` value. */
  function Rendered(p: I18nProperty): (s: string)
    requires !p.Missing?
    ensures p.Undefined? ==> s == "undefined"
    ensures p.Null? ==> s == "null"
    ensures p.Text? ==> s == p.text
  {
    match p
    case Undefined => "undefined"
    case Null => "null"
    case Text(text) => text
  }

  /** A value of the card input's `errors` object: falsy, or an error object. */
  datatype FieldError = NoFieldError | FieldError(errorMessage: string, errorI18n: I18nProperty)

  datatype ErrorPanel = ErrorPanel(errorMessages: seq<string>, fieldList: seq<string>)

  /** The keys with a truthy error, in the order of `Object.entries(errors)`. */
  function KeysInError(errors: seq<(string, FieldError)>): (keys: seq<string>)
    ensures forall k :: k in keys <==> exists i :: 0 <= i < |errors| && errors[i].0 == k && errors[i].1.FieldError?
  {
    if errors == [] then []
    else
      var init := errors[..|errors| - 1];
      var keys := KeysInError(init) + (if errors[|errors| - 1].1.FieldError? then [errors[|errors| - 1].0] else []);
      assert forall i :: 0 <= i < |init| ==> init[i] == errors[i];
      keys
  }

  /** `errors[key]` for an object whose entries are `errors`. */
  function ErrorOf(errors: seq<(string, FieldError)>, key: string): (error: FieldError)
  {
    if errors == [] then NoFieldError
    else if errors[|errors| - 1].0 == key then errors[|errors| - 1].1
    else ErrorOf(errors[..|errors| - 1], key)
  }

  /** Object keys are unique. */
  ghost predicate DistinctKeys(errors: seq<(string, FieldError)>)
  {
    forall i, j :: 0 <= i < j < |errors| ==> errors[i].0 != errors[j].0
  }

  /** The comparator `(a, b) => layout.indexOf(a) - layout.indexOf(b)` as a rank. */
  function LayoutRank(layout: seq<string>): (rank: string -> int)
  {
    key => IndexOf(layout, key)
  }

  /** One error-panel line: `${errorKey}: ${errorMsg}.` */
  function PanelMessage(key: string, error: FieldError, i18n: string -> string,
                        countrySpecificLabels: Option<map<string, string>>): (message: string)
  {
    var errorKey := MapFieldKey(key, i18n, countrySpecificLabels);
    // an own `errorI18n` property is used whatever it holds, even null or undefined
    var errorMsg :=
      if error.FieldError? && !error.errorI18n.Missing? then Rendered(error.errorI18n)
      else i18n(if error.FieldError? then error.errorMessage else "");
    errorKey + ": " + errorMsg + "."
  }

  /**
   * sortErrorsForPanel. The field list is built by pushing each key whose
   * error is truthy and re-sorting the list by layout position after each
   * push, as the source's reduce does.
   */
  method SortErrorsForPanel(errors: seq<(string, FieldError)>, layout: seq<string>, i18n: string -> string,
                            countrySpecificLabels: Option<map<string, string>>)
    returns (panel: Option<ErrorPanel>)
    ensures panel.None? <==> KeysInError(errors) == []
    ensures panel.Some? ==> panel.value.fieldList == SortByRank(KeysInError(errors), LayoutRank(layout))
    ensures panel.Some? ==> |panel.value.errorMessages| == |panel.value.fieldList|
    ensures panel.Some? ==> forall i :: 0 <= i < |panel.value.fieldList| ==>
      panel.value.errorMessages[i] == PanelMessage(panel.value.fieldList[i], ErrorOf(errors, panel.value.fieldList[i]), i18n, countrySpecificLabels)
  {
    var rank := LayoutRank(layout);
    var fieldList: seq<string> := [];
    var i := 0;
    while i < |errors|
      invariant 0 <= i <= |errors|
      invariant fieldList == SortByRank(KeysInError(errors[..i]), rank)
    {
      var (key, value) := errors[i];
      assert errors[..i + 1][..i] == errors[..i];
      assert KeysInError(errors[..i + 1]) == KeysInError(errors[..i]) + (if value.FieldError? then [key] else []);
      if value.FieldError? {
        SortByRankResortAppend(KeysInError(errors[..i]), key, rank);
        fieldList := fieldList + [key];
        fieldList := SortByRank(fieldList, rank);
      } else {
        assert KeysInError(errors[..i + 1]) == KeysInError(errors[..i]);
      }
      i := i + 1;
    }
    assert errors[..i] == errors;
    SortByRankLength(KeysInError(errors), rank);

    if |fieldList| == 0 {
      return None;
    }

    var errorMessages := seq(|fieldList|, j requires 0 <= j < |fieldList| =>
      PanelMessage(fieldList[j], ErrorOf(errors, fieldList[j]), i18n, countrySpecificLabels));

    panel := if |errorMessages| == 0 then None else Some(ErrorPanel(errorMessages, fieldList));
  }

  lemma {:induction false} KeysInErrorDistinct(errors: seq<(string, FieldError)>)
    requires DistinctKeys(errors)
    ensures Distinct(KeysInError(errors))
  {
    if errors != [] {
      var init := errors[..|errors| - 1];
      var last := errors[|errors| - 1];
      assert DistinctKeys(init);
      KeysInErrorDistinct(init);
      assert forall i :: 0 <= i < |init| ==> init[i].0 != last.0 by {
        forall i | 0 <= i < |init| ensures init[i].0 != last.0 {
          assert errors[i] == init[i];
        }
      }
      assert last.0 !in KeysInError(init);
    }
  }

  /**
   * The error panel lists exactly the keys whose error is truthy, each once,
   * ordered by their position in the layout (keys missing from the layout,
   * at index -1, first), with keys at the same position in entry order.
   */
  lemma FieldListIsOrderedErrorKeys(errors: seq<(string, FieldError)>, layout: seq<string>)
    requires DistinctKeys(errors)
    ensures var fieldList := SortByRank(KeysInError(errors), LayoutRank(layout));
      && (forall k :: k in fieldList <==> exists i :: 0 <= i < |errors| && errors[i].0 == k && errors[i].1.FieldError?)
      && Distinct(fieldList)
      && (forall i, j :: 0 <= i < j < |fieldList| ==> IndexOf(layout, fieldList[i]) <= IndexOf(layout, fieldList[j]))
      && SameRankClasses(fieldList, KeysInError(errors), LayoutRank(layout))
  {
    var keys := KeysInError(errors);
    var fieldList := SortByRank(keys, LayoutRank(layout));
    SortByRankFacts(keys, LayoutRank(layout));
    KeysInErrorDistinct(errors);
    PermutationKeepsDistinct(keys, fieldList);
    forall k ensures k in fieldList <==> k in keys {
      assert k in fieldList <==> k in multiset(fieldList);
      assert k in keys <==> k in multiset(keys);
    }
  }
}
