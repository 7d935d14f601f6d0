// Inventory serializers: the category and catalog validators, the pharmacy
// inventory validator, the defaults its create and update write into the
// validated data, and the bulk-update validator.

module InventorySerializers {
  import opened Common
  import Inventory

  // ---------------------------------------------------------------------------
  // Categories and catalog entries
  // ---------------------------------------------------------------------------

  datatype CategoryRef = CategoryRef(id: int, level: nat)

  datatype CategoryError = OwnParent | NestingTooDeep

  /** MedicineCategorySerializer.validate: a category may not be its own parent (checked
      only when editing an existing one), and the parent must sit above level 2. */
  function ValidateCategory(parent: Option<CategoryRef>, instanceId: Option<int>): (r: Outcome<CategoryError>)
    ensures r.Pass? <==> parent.None? || (instanceId != Some(parent.value.id) && parent.value.level < 2)
    ensures parent.Some? && instanceId == Some(parent.value.id) ==> r == Fail(OwnParent)
  {
    if parent.None? then Pass
    else if instanceId.Some? && parent.value.id == instanceId.value then Fail(OwnParent)
    else if parent.value.level >= 2 then Fail(NestingTooDeep)
    else Pass
  }

  /** The catalog fields the validator looks at; a missing key is None. */
  datatype CatalogAttrs = CatalogAttrs(
    controlledSubstance: Option<bool>,
    prescriptionRequired: Option<bool>,
    brandNames: Option<Json>)

  datatype CatalogError = BrandNamesNotList | BlankBrandName

  predicate NonBlankString(j: Json)
  {
    j.JStr? && Strip(j.s) != []
  }

  /** A list of brand names, every one a string that is not blank. */
  predicate WellFormedBrandNames(j: Json)
  {
    j.JList? && forall k :: 0 <= k < |j.items| ==> NonBlankString(j.items[k])
  }

  /** MedicineCatalogSerializer.validate: a controlled substance is forced to need a
      prescription; truthy brand names must be a list of non-blank strings. */
  function ValidateCatalog(a: CatalogAttrs): (r: Result<CatalogAttrs, CatalogError>)
    ensures r.Ok? <==> a.brandNames.None? || !JsonTruthy(a.brandNames.value) || WellFormedBrandNames(a.brandNames.value)
    ensures r.Ok? && a.controlledSubstance == Some(true) ==> r.value.prescriptionRequired == Some(true)
    ensures r.Ok? && a.controlledSubstance != Some(true) ==> r.value == a
    ensures r.Ok? ==> r.value.controlledSubstance == a.controlledSubstance && r.value.brandNames == a.brandNames
    ensures r.Ok? && a.prescriptionRequired == Some(true) ==> r.value == a
  {
    var a' := if a.controlledSubstance == Some(true) && a.prescriptionRequired != Some(true)
              then a.(prescriptionRequired := Some(true)) else a;
    if a.brandNames.Some? && JsonTruthy(a.brandNames.value) then
      if !a.brandNames.value.JList? then Err(BrandNamesNotList)
      else if !(forall k :: 0 <= k < |a.brandNames.value.items| ==> NonBlankString(a.brandNames.value.items[k]))
      then Err(BlankBrandName)
      else Ok(a')
    else Ok(a')
  }

  /** Validating the catalog output again changes nothing. */
  lemma ValidateCatalogIdempotent(a: CatalogAttrs)
    requires ValidateCatalog(a).Ok?
    ensures ValidateCatalog(ValidateCatalog(a).value) == ValidateCatalog(a)
  {
  }

  // ---------------------------------------------------------------------------
  // PharmacyInventorySerializer
  // ---------------------------------------------------------------------------

  /** The validated data of an inventory item. A missing key is None; for the three
      sale fields and the description, Some(None) is a key explicitly set to null. */
  datatype InventoryAttrs = InventoryAttrs(
    medicine: Option<Inventory.CatalogEntry>,
    customName: Option<string>,
    isOnSale: Option<bool>,
    saleStartDate: Option<Option<int>>,
    saleEndDate: Option<Option<int>>,
    discountPercentage: Option<Option<int>>,
    stockQuantity: Option<int>,
    minStockLevel: Option<int>,
    price: Option<real>,
    costPrice: Option<real>,
    originalPrice: Option<real>,
    isAvailable: Option<bool>,
    name: Option<string>,
    form: Option<string>,
    dosage: Option<string>,
    description: Option<Option<string>>,
    prescriptionRequired: Option<bool>,
    category: Option<int>)

  /** attrs.get(key): a missing key and a null value both read as None. */
  function Get<T>(x: Option<Option<T>>): (r: Option<T>)
    ensures r.Some? <==> x.Some? && x.value.Some?
  {
    if x.Some? then x.value else None
  }

  predicate IntTruthy(x: Option<int>) { x.Some? && x.value != 0 }
  predicate RealTruthy(x: Option<real>) { x.Some? && x.value != 0.0 }

  datatype InventoryError =
    | CustomNameRequired
    | SaleDatesRequired
    | SaleWindowInverted
    | DiscountOutOfRange
    | NegativeStock
    | NegativeMinStock
    | NegativePrice
    | NegativeCost
    | PriceBelowCost

  /** The sale window of the data is complete and ordered. */
  predicate SaleWindowOrdered(a: InventoryAttrs)
  {
    Get(a.saleStartDate).Some? && Get(a.saleEndDate).Some?
    && Get(a.saleStartDate).value < Get(a.saleEndDate).value
  }

  /** Everything the inventory validator demands, stated field by field. */
  predicate InventoryAcceptable(a: InventoryAttrs)
  {
    (a.medicine.Some? || Truthy(a.customName))
    && (a.isOnSale == Some(true) ==> SaleWindowOrdered(a))
    && (IntTruthy(Get(a.discountPercentage)) ==> 0 <= Get(a.discountPercentage).value <= 100)
    && (a.stockQuantity.Some? && a.minStockLevel.Some? ==> a.stockQuantity.value >= 0 && a.minStockLevel.value >= 0)
    && (a.price.Some? ==> a.price.value >= 0.0)
    && (RealTruthy(a.costPrice) ==> a.costPrice.value >= 0.0 && (a.price.Some? ==> a.price.value >= a.costPrice.value))
  }

  /** PharmacyInventorySerializer.validate, checking in the source's order. */
  function ValidateInventory(a: InventoryAttrs): (r: Outcome<InventoryError>)
    ensures r.Pass? <==> InventoryAcceptable(a)
    ensures a.medicine.None? && !Truthy(a.customName) ==> r == Fail(CustomNameRequired)
    ensures Get(a.discountPercentage) == Some(0) ==> r != Fail(DiscountOutOfRange)
  {
    if a.medicine.None? && !Truthy(a.customName) then Fail(CustomNameRequired)
    else if a.isOnSale == Some(true) && (Get(a.saleStartDate).None? || Get(a.saleEndDate).None?) then Fail(SaleDatesRequired)
    else if a.isOnSale == Some(true) && Get(a.saleStartDate).value >= Get(a.saleEndDate).value then Fail(SaleWindowInverted)
    else if IntTruthy(Get(a.discountPercentage)) && !(0 <= Get(a.discountPercentage).value <= 100) then Fail(DiscountOutOfRange)
    else if a.stockQuantity.Some? && a.minStockLevel.Some? && a.stockQuantity.value < 0 then Fail(NegativeStock)
    else if a.stockQuantity.Some? && a.minStockLevel.Some? && a.minStockLevel.value < 0 then Fail(NegativeMinStock)
    else if a.price.Some? && a.price.value < 0.0 then Fail(NegativePrice)
    else if RealTruthy(a.costPrice) && a.costPrice.value < 0.0 then Fail(NegativeCost)
    else if RealTruthy(a.costPrice) && a.price.Some? && a.price.value < a.costPrice.value then Fail(PriceBelowCost)
    else Pass
  }

  /** The serializer accepts no sale or discount that the model-level clean would
      refuse: a validated sale with a non-negative discount passes clean's sale checks. */
  lemma ValidatedSaleIsClean(a: InventoryAttrs, d: Option<nat>)
    requires ValidateInventory(a).Pass?
    requires Get(a.discountPercentage).Some? ==> d == Some(Get(a.discountPercentage).value as nat)
    requires Get(a.discountPercentage).None? ==> d.None?
    requires Get(a.discountPercentage).Some? ==> Get(a.discountPercentage).value >= 0
    ensures Inventory.Clean(Some(Inventory.CatalogEntry("", "", "", "", None, false, 0)), "", "", "",
                            a.isOnSale == Some(true), Get(a.saleStartDate), Get(a.saleEndDate), d).Pass?
  {
  }

  /** create: a price without a truthy original price also becomes the original price;
      a catalog item without a custom name takes the catalog's descriptive fields. */
  function PrepareCreate(a: InventoryAttrs): (r: InventoryAttrs)
    ensures a.price.Some? && !RealTruthy(a.originalPrice) ==> r.originalPrice == a.price
    ensures !(a.price.Some? && !RealTruthy(a.originalPrice)) ==> r.originalPrice == a.originalPrice
    ensures a.medicine.Some? && !Truthy(a.customName) ==>
              r.name == Some(a.medicine.value.name) && r.form == Some(a.medicine.value.form)
              && r.dosage == Some(a.medicine.value.dosage) && r.description == Some(a.medicine.value.description)
              && r.prescriptionRequired == Some(a.medicine.value.prescriptionRequired)
              && r.category == Some(a.medicine.value.category)
    ensures !(a.medicine.Some? && !Truthy(a.customName)) ==> r == a.(originalPrice := r.originalPrice)
    ensures r.(originalPrice := a.originalPrice, name := a.name, form := a.form, dosage := a.dosage,
               description := a.description, prescriptionRequired := a.prescriptionRequired, category := a.category) == a
  {
    var a1 := if a.price.Some? && !RealTruthy(a.originalPrice) then a.(originalPrice := a.price) else a;
    if a.medicine.Some? && !Truthy(a.customName) then
      var m := a.medicine.value;
      a1.(name := Some(m.name), form := Some(m.form), dosage := Some(m.dosage), description := Some(m.description),
          prescriptionRequired := Some(m.prescriptionRequired), category := Some(m.category))
    else a1
  }

  /** Preparing the data twice gives what preparing it once gives. */
  lemma PrepareCreateIdempotent(a: InventoryAttrs)
    ensures PrepareCreate(PrepareCreate(a)) == PrepareCreate(a)
  {
  }

  datatype UpdateError = StockNegative

  /** update: a negative stock is refused; a stock of 0 makes the item unavailable and
      a restock from 0 makes it available again; switching the sale off nulls the
      discount and both sale dates. Nothing else in the data changes. */
  function PrepareUpdate(oldStock: int, a: InventoryAttrs): (r: Result<InventoryAttrs, UpdateError>)
    ensures r.Err? <==> a.stockQuantity.Some? && a.stockQuantity.value < 0
    ensures r.Ok? && a.stockQuantity == Some(0) ==> r.value.isAvailable == Some(false)
    ensures r.Ok? && oldStock == 0 && a.stockQuantity.Some? && a.stockQuantity.value > 0 ==> r.value.isAvailable == Some(true)
    ensures r.Ok? && !(a.stockQuantity.Some? && (a.stockQuantity.value == 0 || oldStock == 0))
            ==> r.value.isAvailable == a.isAvailable
    ensures r.Ok? && a.isOnSale == Some(false) ==>
              r.value.discountPercentage == Some(None) && r.value.saleStartDate == Some(None) && r.value.saleEndDate == Some(None)
    ensures r.Ok? && a.isOnSale != Some(false) ==>
              r.value.discountPercentage == a.discountPercentage && r.value.saleStartDate == a.saleStartDate
              && r.value.saleEndDate == a.saleEndDate
    ensures r.Ok? ==> r.value.(isAvailable := a.isAvailable, discountPercentage := a.discountPercentage,
                               saleStartDate := a.saleStartDate, saleEndDate := a.saleEndDate) == a
  {
    if a.stockQuantity.Some? && a.stockQuantity.value < 0 then Err(StockNegative)
    else
      var a1 := if a.stockQuantity.Some? && a.stockQuantity.value == 0 then a.(isAvailable := Some(false))
                else if a.stockQuantity.Some? && oldStock == 0 && a.stockQuantity.value > 0 then a.(isAvailable := Some(true))
                else a;
      if a.isOnSale == Some(false)
      then Ok(a1.(discountPercentage := Some(None), saleStartDate := Some(None), saleEndDate := Some(None)))
      else Ok(a1)
  }

  /** When an update sets the stock, the availability it writes follows the stock
      classification: an item goes unavailable exactly when it is out of stock. */
  lemma UpdateAvailabilityFollowsStock(oldStock: int, a: InventoryAttrs, minLevel: nat, maxLevel: nat)
    requires a.stockQuantity.Some? && a.stockQuantity.value >= 0
    requires oldStock == 0 || a.stockQuantity.value == 0
    ensures PrepareUpdate(oldStock, a).Ok?
    ensures PrepareUpdate(oldStock, a).value.isAvailable == Some(false)
            <==> Inventory.ClassifyStock(a.stockQuantity.value, minLevel, maxLevel) == Inventory.OutOfStock
  {
  }

  /** Applying the update rules to their own output is a no-op. */
  lemma PrepareUpdateIdempotent(oldStock: int, a: InventoryAttrs)
    requires PrepareUpdate(oldStock, a).Ok?
    ensures PrepareUpdate(oldStock, PrepareUpdate(oldStock, a).value) == PrepareUpdate(oldStock, a)
  {
  }

  // ---------------------------------------------------------------------------
  // InventoryBulkUpdateSerializer
  // ---------------------------------------------------------------------------

  const BulkUpdateFields: set<string> :=
    {"price", "stock_quantity", "is_available", "is_featured", "is_on_sale",
     "discount_percentage", "sale_start_date", "sale_end_date"}

  datatype BulkError = NoItems | NoUpdates | InvalidFields(fields: set<string>)

  /** The bulk validator: some ids, some updates, and only the eight allowed fields;
      a refusal for bad fields names exactly the offending ones. */
  function ValidateBulkUpdate(ids: seq<int>, updateKeys: set<string>): (r: Outcome<BulkError>)
    ensures r.Pass? <==> ids != [] && updateKeys != {} && updateKeys <= BulkUpdateFields
    ensures r.Fail? && r.error.InvalidFields? ==> r.error.fields == updateKeys - BulkUpdateFields && r.error.fields != {}
  {
    if ids == [] then Fail(NoItems)
    else if updateKeys == {} then Fail(NoUpdates)
    else if updateKeys - BulkUpdateFields != {} then Fail(InvalidFields(updateKeys - BulkUpdateFields))
    else Pass
  }

  /** The bulk validator never lets through a change to the product's identity. */
  lemma BulkUpdateNeverRenames(ids: seq<int>, updateKeys: set<string>)
    requires "name" in updateKeys || "medicine" in updateKeys || "cost_price" in updateKeys
    ensures ValidateBulkUpdate(ids, updateKeys).Fail?
  {
  }
}
