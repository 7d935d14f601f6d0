// PharmacyInventory: sale pricing, stock classification and alerts, stock
// updates, sales, catalog inheritance on save, and the display name.

module Inventory {
  import opened Common

  /** The catalog fields an inventory item reads or inherits. The catalog's own
      display name is computed by the catalog model and taken here as given. */
  datatype CatalogEntry = CatalogEntry(
    displayName: string,
    name: string,
    form: string,
    dosage: string,
    description: Option<string>,
    prescriptionRequired: bool,
    category: int)

  datatype StockStatus = OutOfStock | LowStock | Overstocked | NormalStock

  datatype StockAlert = LowStockAlert | OutOfStockAlert

  /** The `operation` argument of update_stock; any other text is ignored. */
  datatype StockOperation = Add | Subtract | SetTo | OtherOperation

  /** InsufficientStock is update_stock's ValidationError; ConstraintViolated is the
      IntegrityError the database raises when a save would break a check constraint. */
  datatype InventoryError = InsufficientStock | ConstraintViolated

  /** Python truthiness of the nullable discount percentage. */
  predicate DiscountSet(d: Option<nat>)
  {
    d.Some? && d.value != 0
  }

  /** stock_status: 0 is out of stock, then at or below the minimum is low, then at or
      above the maximum is overstocked; anything else is normal. */
  function ClassifyStock(stock: nat, minLevel: nat, maxLevel: nat): (r: StockStatus)
    ensures r == OutOfStock <==> stock == 0
    ensures r == LowStock <==> 0 < stock <= minLevel
    ensures r == Overstocked <==> stock > 0 && stock > minLevel && stock >= maxLevel
    ensures r == NormalStock ==> minLevel < stock < maxLevel
  {
    if stock == 0 then OutOfStock
    else if stock <= minLevel then LowStock
    else if stock >= maxLevel then Overstocked
    else NormalStock
  }

  /** check_stock_alert as written: the low-stock test comes first. */
  function StockAlertAsWritten(stock: nat, minLevel: nat): Option<StockAlert>
  {
    if stock <= minLevel then Some(LowStockAlert)
    else if stock == 0 then Some(OutOfStockAlert)
    else None
  }

  /** Because both levels are non-negative, an empty shelf is reported as low stock:
      the out-of-stock alert can never be produced. */
  lemma StockAlertNeverOutOfStock(stock: nat, minLevel: nat)
    ensures StockAlertAsWritten(stock, minLevel) != Some(OutOfStockAlert)
    ensures StockAlertAsWritten(0, minLevel) == Some(LowStockAlert)
  {
  }

  /** check_stock_alert with the empty-shelf test first, as stock_status orders them. */
  function StockAlertCorrected(stock: nat, minLevel: nat): (r: Option<StockAlert>)
    ensures r == Some(OutOfStockAlert) <==> ClassifyStock(stock, minLevel, 0) == OutOfStock
    ensures r == Some(LowStockAlert) <==> ClassifyStock(stock, minLevel, 0) == LowStock
    ensures r.None? <==> stock > minLevel
  {
    if stock == 0 then Some(OutOfStockAlert)
    else if stock <= minLevel then Some(LowStockAlert)
    else None
  }

  /** The corrected alert differs from the written one on exactly one input class: an empty shelf. */
  lemma StockAlertCorrectionOnlyAtZero(stock: nat, minLevel: nat)
    ensures StockAlertCorrected(stock, minLevel) != StockAlertAsWritten(stock, minLevel) <==> stock == 0
  {
  }

  class PharmacyInventory {
    var medicine: Option<CatalogEntry>
    var name: string
    var form: string
    var dosage: string
    var description: Option<string>
    var prescriptionRequired: bool
    var category: int
    var customName: Option<string>
    var price: real
    var originalPrice: Option<real>
    var costPrice: Option<real>
    var stockQuantity: int
    var minStockLevel: nat
    var maxStockLevel: nat
    var isAvailable: bool
    var isOnSale: bool
    var saleStartDate: Option<int>
    var saleEndDate: Option<int>
    var discountPercentage: Option<nat>

    /** The table's check constraints: price and stock non-negative, the discount
        unset or in [0, 100]. The database refuses to write a row that breaks them. */
    predicate Valid()
      reads this
    {
      price >= 0.0 && stockQuantity >= 0
      && (discountPercentage.None? || discountPercentage.value <= 100)
    }

    constructor (price: real, stock: nat)
      ensures this.price == price && stockQuantity == stock
      ensures medicine == None && customName == None && originalPrice == None && costPrice == None
      ensures minStockLevel == 10 && maxStockLevel == 1000
      ensures isAvailable && !isOnSale && saleStartDate == None && saleEndDate == None && discountPercentage == None
      ensures !prescriptionRequired
    {
      this.price := price;
      stockQuantity := stock;
      medicine := None;
      name := "";
      form := "";
      dosage := "";
      description := None;
      prescriptionRequired := false;
      category := 0;
      customName := None;
      originalPrice := None;
      costPrice := None;
      minStockLevel := 10;
      maxStockLevel := 1000;
      isAvailable := true;
      isOnSale := false;
      saleStartDate := None;
      saleEndDate := None;
      discountPercentage := None;
    }

    predicate IsCustomProduct() reads this { medicine.None? }
    predicate IsFromCatalog() reads this { medicine.Some? }

    /** discount_amount: price * d / 100 during a sale with a truthy discount, else 0. */
    function DiscountAmount(): (r: real)
      reads this
      ensures !(isOnSale && DiscountSet(discountPercentage)) ==> r == 0.0
      ensures Valid() ==> 0.0 <= r <= price
    {
      if isOnSale && DiscountSet(discountPercentage)
      then price * discountPercentage.value as real / 100.0
      else 0.0
    }

    /** current_price: the price less the sale discount. The two always add back up
        to the list price, and a valid item's current price lies in [0, price]. */
    function CurrentPrice(): (r: real)
      reads this
      ensures r + DiscountAmount() == price
      ensures Valid() ==> 0.0 <= r <= price
      ensures !isOnSale ==> r == price
    {
      if isOnSale && DiscountSet(discountPercentage)
      then price - price * discountPercentage.value as real / 100.0
      else price
    }

    /** profit_margin: a percentage only when the cost price is positive. */
    function ProfitMargin(): (r: Option<real>)
      reads this
      ensures r.Some? <==> costPrice.Some? && costPrice.value > 0.0
      ensures r.Some? ==> (r.value >= 0.0 <==> price >= costPrice.value)
      ensures r.Some? ==> r.value * costPrice.value == (price - costPrice.value) * 100.0
    {
      if costPrice.Some? && costPrice.value != 0.0 && costPrice.value > 0.0
      then Some((price - costPrice.value) / costPrice.value * 100.0)
      else None
    }

    /** stock_status of the item: out of stock exactly when the shelf is empty, low at
        or below the minimum, overstocked at or above the maximum. */
    function StockStatusOf(): (r: StockStatus)
      reads this
      requires stockQuantity >= 0
      ensures r == OutOfStock <==> stockQuantity == 0
      ensures r == LowStock <==> 0 < stockQuantity <= minStockLevel
      ensures r == Overstocked <==> minStockLevel < stockQuantity && maxStockLevel <= stockQuantity
      ensures r == NormalStock ==> minStockLevel < stockQuantity < maxStockLevel
    {
      ClassifyStock(stockQuantity, minStockLevel, maxStockLevel)
    }

    /** display_name: the custom name, else the catalog's, else "name dosage form",
        the form shown by its label among the catalog's form choices. */
    function DisplayName(formLabels: map<string, string>): (r: string)
      reads this
      ensures Truthy(customName) ==> r == customName.value
      ensures !Truthy(customName) && medicine.Some? ==> r == medicine.value.displayName
      ensures !Truthy(customName) && medicine.None? ==> r == name + " " + dosage + " " + FormDisplay(form, formLabels)
    {
      if Truthy(customName) then customName.value
      else if medicine.Some? then medicine.value.displayName
      else name + " " + dosage + " " + FormDisplay(form, formLabels)
    }

    /** update_stock: add, subtract (refused when it would go below zero), set, or
        nothing for an unknown operation, then save. Only the stock changes; the save
        fails when the new row breaks a check constraint, leaving the new values in
        memory. */
    method UpdateStock(quantityChange: int, operation: StockOperation) returns (o: Outcome<InventoryError>)
      modifies this`stockQuantity, this`originalPrice, this`name, this`form, this`dosage, this`description,
               this`prescriptionRequired, this`category
      ensures o == Fail(InsufficientStock) <==> operation == Subtract && old(stockQuantity) < quantityChange
      ensures o == Fail(InsufficientStock) ==> unchanged(this)
      ensures o != Fail(InsufficientStock) ==>
                && stockQuantity == (match operation
                                     case Add => old(stockQuantity) + quantityChange
                                     case Subtract => old(stockQuantity) - quantityChange
                                     case SetTo => quantityChange
                                     case OtherOperation => old(stockQuantity))
                && Saved() && SaveKept()
      ensures o.Pass? <==> o != Fail(InsufficientStock) && Valid()
      ensures old(Valid()) && o != Fail(InsufficientStock) ==> (o.Pass? <==> stockQuantity >= 0)
      ensures old(Valid()) && operation == Subtract ==> (o.Pass? <==> quantityChange <= old(stockQuantity))
    {
      match operation {
        case Add =>
          stockQuantity := stockQuantity + quantityChange;
        case Subtract =>
          if stockQuantity < quantityChange {
            return Fail(InsufficientStock);
          }
          stockQuantity := stockQuantity - quantityChange;
        case SetTo =>
          stockQuantity := quantityChange;
        case OtherOperation =>
      }
      o := Save();
    }

    /** start_sale: switch the sale on with its discount and window, then save; a
        discount above 100 breaks the discount constraint and the save fails. */
    method StartSale(discount: nat, startDate: int, endDate: int) returns (o: Outcome<InventoryError>)
      modifies this`isOnSale, this`discountPercentage, this`saleStartDate, this`saleEndDate,
               this`originalPrice, this`name, this`form, this`dosage, this`description,
               this`prescriptionRequired, this`category
      ensures Saved() && SaveKept()
      ensures isOnSale && discountPercentage == Some(discount)
      ensures saleStartDate == Some(startDate) && saleEndDate == Some(endDate)
      ensures o.Pass? <==> Valid()
      ensures old(Valid()) ==> (o.Pass? <==> discount <= 100)
      ensures o.Fail? ==> o.error == ConstraintViolated
      ensures o.Pass? ==> 0.0 <= CurrentPrice() <= price
      ensures discount != 0 ==> CurrentPrice() == price - price * discount as real / 100.0
    {
      isOnSale := true;
      discountPercentage := Some(discount);
      saleStartDate := Some(startDate);
      saleEndDate := Some(endDate);
      o := Save();
    }

    /** end_sale: clear all four sale fields and save; the item sells at its list price
        again, and a row that met the constraints still meets them. */
    method EndSale() returns (o: Outcome<InventoryError>)
      modifies this`isOnSale, this`discountPercentage, this`saleStartDate, this`saleEndDate,
               this`originalPrice, this`name, this`form, this`dosage, this`description,
               this`prescriptionRequired, this`category
      ensures Saved() && SaveKept()
      ensures !isOnSale && discountPercentage == None && saleStartDate == None && saleEndDate == None
      ensures CurrentPrice() == price && DiscountAmount() == 0.0
      ensures o.Pass? <==> price >= 0.0 && stockQuantity >= 0
      ensures old(Valid()) ==> o.Pass?
    {
      isOnSale := false;
      discountPercentage := None;
      saleStartDate := None;
      saleEndDate := None;
      o := Save();
    }

    /** A catalog item without a custom name takes its descriptive fields from the catalog. */
    predicate Inherits()
      reads this
    {
      medicine.Some? && !Truthy(customName)
    }

    predicate CatalogCopied()
      reads this
      requires medicine.Some?
    {
      name == medicine.value.name && form == medicine.value.form && dosage == medicine.value.dosage
      && description == medicine.value.description
      && prescriptionRequired == medicine.value.prescriptionRequired
      && category == medicine.value.category
    }

    /** What every save leaves behind: an original price, and the catalog fields copied
        when the item inherits them. */
    predicate Saved()
      reads this
    {
      originalPrice.Some? && (Inherits() ==> CatalogCopied())
    }

    /** What a save keeps: the original price, unless it was unset or zero, and every
        descriptive field of an item that does not inherit from the catalog. */
    twostate predicate SaveKept()
      reads this
    {
      && originalPrice == FilledOriginalPrice(old(originalPrice), price)
      && (!Inherits() ==>
            name == old(name) && form == old(form) && dosage == old(dosage) && description == old(description)
            && prescriptionRequired == old(prescriptionRequired) && category == old(category))
    }

    /** save: an unset or zero original price takes the price; a catalog item without a
        custom name copies its name, form, dosage, description, prescription flag and
        category from the catalog. These happen in memory; the row is then written only
        when it meets the check constraints. */
    method Save() returns (o: Outcome<InventoryError>)
      modifies this`originalPrice, this`name, this`form, this`dosage, this`description,
               this`prescriptionRequired, this`category
      ensures originalPrice == if old(originalPrice).None? || old(originalPrice).value == 0.0
                               then Some(price) else old(originalPrice)
      ensures Inherits() ==> CatalogCopied()
      ensures !Inherits() ==>
                name == old(name) && form == old(form) && dosage == old(dosage) && description == old(description)
                && prescriptionRequired == old(prescriptionRequired) && category == old(category)
      ensures Saved() && SaveKept()
      ensures o.Pass? <==> Valid()
      ensures o.Fail? ==> o.error == ConstraintViolated
    {
      if originalPrice.None? || originalPrice.value == 0.0 {
        originalPrice := Some(price);
      }
      if medicine.Some? && !Truthy(customName) {
        var m := medicine.value;
        name := m.name;
        form := m.form;
        dosage := m.dosage;
        description := m.description;
        prescriptionRequired := m.prescriptionRequired;
        category := m.category;
      }
      o := if Valid() then Pass else Fail(ConstraintViolated);
    }
  }

  /** get_form_display: the label the choices give the stored form, or the stored
      value itself when it is not among them. */
  function FormDisplay(form: string, formLabels: map<string, string>): (r: string)
    ensures form in formLabels ==> r == formLabels[form]
    ensures form !in formLabels ==> r == form
  {
    if form in formLabels then formLabels[form] else form
  }

  /** The original price a save leaves: the price when it was unset or zero, else as it was. */
  function FilledOriginalPrice(original: Option<real>, price: real): (r: Option<real>)
    ensures r.Some?
    ensures original.Some? && original.value != 0.0 ==> r == original
    ensures original.None? || original.value == 0.0 ==> r == Some(price)
  {
    if original.None? || original.value == 0.0 then Some(price) else original
  }

  /** Saving twice fills the original price no differently from saving once, whatever
      the price, zero included. */
  lemma SaveIdempotentOnPrice(original: Option<real>, price: real)
    ensures FilledOriginalPrice(FilledOriginalPrice(original, price), price) == FilledOriginalPrice(original, price)
  {
  }

  datatype InventoryCleanError = CustomProductIncomplete | SaleWithoutDates | SaleWindowInverted | DiscountOutOfRange

  /** clean: a custom product needs name, form and dosage; a sale needs an ordered
      window; a truthy discount must lie in [0, 100]. */
  function Clean(medicine: Option<CatalogEntry>, name: string, form: string, dosage: string,
                 isOnSale: bool, saleStart: Option<int>, saleEnd: Option<int>, discount: Option<nat>): (r: Outcome<InventoryCleanError>)
    ensures r.Pass? <==> (medicine.None? ==> name != [] && form != [] && dosage != [])
                         && (isOnSale ==> saleStart.Some? && saleEnd.Some? && saleStart.value < saleEnd.value)
                         && (DiscountSet(discount) ==> discount.value <= 100)
  {
    if medicine.None? && (name == [] || form == [] || dosage == []) then Fail(CustomProductIncomplete)
    else if isOnSale && (saleStart.None? || saleEnd.None?) then Fail(SaleWithoutDates)
    else if isOnSale && saleStart.value >= saleEnd.value then Fail(SaleWindowInverted)
    else if DiscountSet(discount) && discount.value > 100 then Fail(DiscountOutOfRange)
    else Pass
  }
}
