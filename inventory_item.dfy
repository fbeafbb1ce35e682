/**
 * The InventoryItem entity (org.seng302.business.inventoryItem.InventoryItem): a batch of one
 * business's product, whose constructor runs a chain of guards before storing its columns.
 * Dates are day numbers, and "today" (LocalDate.now()) is a parameter.
 */
module Inventory {
  import opened Wrappers

  /** The part of a product the constructor reads: its id and the business that sells it. */
  datatype Product = Product(productId: string, businessId: int)

  /** The nine constructor arguments, in parameter order; None stands for null. */
  datatype ItemArgs = ItemArgs(
    product: Option<Product>,
    productId: Option<string>,
    quantity: Option<int>,
    pricePerItem: Option<real>,
    totalPrice: Option<real>,
    manufactured: Option<int>,
    sellBy: Option<int>,
    bestBefore: Option<int>,
    expires: Option<int>)

  /** Why the constructor threw. */
  datatype InventoryError =
    | InvalidProduct
    | InvalidProductId
    | InvalidQuantity
    | NegativePricePerItem
    | NegativeTotalPrice
    | InvalidManufactureDate
    | InvalidExpiry

  // The constructor's guards, in the order it makes them; each holds when its check passes.

  predicate ProductGiven(a: ItemArgs) { a.product.Some? }

  /** productId.equals(product.getProductId()), which is false for a null productId. */
  predicate ProductIdMatches(a: ItemArgs) { a.product.Some? && a.productId == Some(a.product.value.productId) }

  predicate QuantityPositive(a: ItemArgs) { a.quantity.Some? && a.quantity.value > 0 }

  predicate PricePerItemNonNegative(a: ItemArgs) { a.pricePerItem.None? || a.pricePerItem.value >= 0.0 }

  predicate TotalPriceNonNegative(a: ItemArgs) { a.totalPrice.None? || a.totalPrice.value >= 0.0 }

  /** The manufacture date, when given, is not after today. */
  predicate ManufacturedByToday(a: ItemArgs, today: int) { a.manufactured.None? || a.manufactured.value <= today }

  /** The expiry date is given and is not before today. */
  predicate NotExpired(a: ItemArgs, today: int) { a.expires.Some? && a.expires.value >= today }

  /**
   * The guard chain: the error of the first guard that fails, or None when the item may be built.
   * Each error is reported exactly when its guard fails and every earlier one passes.
   */
  function FirstInvalid(a: ItemArgs, today: int): (r: Option<InventoryError>)
    ensures r.None? <==>
              ProductGiven(a) && ProductIdMatches(a) && QuantityPositive(a) && PricePerItemNonNegative(a)
              && TotalPriceNonNegative(a) && ManufacturedByToday(a, today) && NotExpired(a, today)
    ensures r == Some(InvalidProduct) <==> !ProductGiven(a)
    ensures r == Some(InvalidProductId) <==> ProductGiven(a) && !ProductIdMatches(a)
    ensures r == Some(InvalidQuantity) <==> ProductIdMatches(a) && !QuantityPositive(a)
    ensures r == Some(NegativePricePerItem) <==>
              ProductIdMatches(a) && QuantityPositive(a) && !PricePerItemNonNegative(a)
    ensures r == Some(NegativeTotalPrice) <==>
              ProductIdMatches(a) && QuantityPositive(a) && PricePerItemNonNegative(a) && !TotalPriceNonNegative(a)
    ensures r == Some(InvalidManufactureDate) <==>
              ProductIdMatches(a) && QuantityPositive(a) && PricePerItemNonNegative(a) && TotalPriceNonNegative(a)
              && !ManufacturedByToday(a, today)
    ensures r == Some(InvalidExpiry) <==>
              ProductIdMatches(a) && QuantityPositive(a) && PricePerItemNonNegative(a) && TotalPriceNonNegative(a)
              && ManufacturedByToday(a, today) && !NotExpired(a, today)
  {
    if a.product.None? then Some(InvalidProduct)
    else if a.productId.None? || a.productId.value != a.product.value.productId then Some(InvalidProductId)
    else if a.quantity.None? || a.quantity.value <= 0 then Some(InvalidQuantity)
    else if a.pricePerItem.Some? && a.pricePerItem.value < 0.0 then Some(NegativePricePerItem)
    else if a.totalPrice.Some? && a.totalPrice.value < 0.0 then Some(NegativeTotalPrice)
    else if a.manufactured.Some? && a.manufactured.value > today then Some(InvalidManufactureDate)
    else if a.expires.None? || a.expires.value < today then Some(InvalidExpiry)
    else None
  }

  /** The stored columns of an inventory item (the generated id apart). */
  datatype ItemColumns = ItemColumns(
    product: Option<Product>,
    productId: Option<string>,
    businessId: Option<int>,
    quantity: Option<int>,
    pricePerItem: Option<real>,
    totalPrice: Option<real>,
    manufactured: Option<int>,
    sellBy: Option<int>,
    bestBefore: Option<int>,
    expires: Option<int>)

  /** What the constructor stores: the ids from the product, every other argument as passed. */
  function Stored(a: ItemArgs): ItemColumns
    requires a.product.Some?
  {
    ItemColumns(a.product, Some(a.product.value.productId), Some(a.product.value.businessId), a.quantity,
                a.pricePerItem, a.totalPrice, a.manufactured, a.sellBy, a.bestBefore, a.expires)
  }

  /** What an accepted item holds: the product's own ids, a positive quantity, no negative price, dates around today. */
  predicate WellFormed(c: ItemColumns, today: int)
  {
    && c.product.Some?
    && c.productId == Some(c.product.value.productId)
    && c.businessId == Some(c.product.value.businessId)
    && c.quantity.Some? && c.quantity.value > 0
    && (c.pricePerItem.None? || c.pricePerItem.value >= 0.0)
    && (c.totalPrice.None? || c.totalPrice.value >= 0.0)
    && (c.manufactured.None? || c.manufactured.value <= today)
    && c.expires.Some? && today <= c.expires.value
  }

  // ---------------------------------------------------------------------------------------
  // Properties of the guard chain

  /** An accepted item is well formed, and what it stores agrees with the arguments it was given. */
  lemma AcceptedIsWellFormed(a: ItemArgs, today: int)
    requires FirstInvalid(a, today).None?
    ensures WellFormed(Stored(a), today)
    ensures Stored(a).productId == a.productId
  {
  }

  /** An item that expires today is not expired: the check is "before today", not "on or before". */
  lemma ExpiringTodayIsAccepted(p: Product, quantity: int, today: int)
    requires quantity > 0
    ensures FirstInvalid(ItemArgs(Some(p), Some(p.productId), Some(quantity), None, None, None, None, None, Some(today)), today).None?
    ensures FirstInvalid(ItemArgs(Some(p), Some(p.productId), Some(quantity), None, None, None, None, None, Some(today - 1)), today)
            == Some(InvalidExpiry)
  {
  }

  /**
   * The prices are optional: clearing them never causes a rejection, and when the other guards
   * pass, leaving the prices out is accepted.
   */
  lemma NullPricesAreAccepted(a: ItemArgs, today: int)
    ensures var b := a.(pricePerItem := None, totalPrice := None);
            && FirstInvalid(b, today) != Some(NegativePricePerItem)
            && FirstInvalid(b, today) != Some(NegativeTotalPrice)
            && (FirstInvalid(a, today).None? ==> FirstInvalid(b, today).None?)
  {
  }

  /** The date guards accept exactly the days from the manufacture date to the expiry date. */
  lemma AcceptedDays(a: ItemArgs, d1: int, d: int, d2: int)
    requires d1 <= d <= d2
    requires FirstInvalid(a, d1).None? && FirstInvalid(a, d2).None?
    ensures FirstInvalid(a, d).None?
  {
  }

  // ---------------------------------------------------------------------------------------
  // The entity

  class InventoryItem {
    var id: int
    var product: Option<Product>
    var productId: Option<string>
    var businessId: Option<int>
    var quantity: Option<int>
    var pricePerItem: Option<real>
    var totalPrice: Option<real>
    var manufactured: Option<int>
    var sellBy: Option<int>
    var bestBefore: Option<int>
    var expires: Option<int>

    function Columns(): ItemColumns
      reads this
    {
      ItemColumns(product, productId, businessId, quantity, pricePerItem, totalPrice, manufactured, sellBy,
                  bestBefore, expires)
    }

    /** The constructor once every guard has passed; Create is the constructor with its failures. */
    constructor (a: ItemArgs, today: int)
      requires FirstInvalid(a, today).None?
      ensures Columns() == Stored(a) && WellFormed(Columns(), today)
    {
      AcceptedIsWellFormed(a, today);
      id := 0;
      product := a.product;
      productId := Some(a.product.value.productId);
      businessId := Some(a.product.value.businessId);
      quantity := a.quantity;
      pricePerItem := a.pricePerItem;
      totalPrice := a.totalPrice;
      manufactured := a.manufactured;
      sellBy := a.sellBy;
      bestBefore := a.bestBefore;
      expires := a.expires;
    }

    /** `new InventoryItem(...)`: throws the first failing guard's error, otherwise stores the columns. */
    static method Create(a: ItemArgs, today: int) returns (r: Result<InventoryItem, InventoryError>)
      ensures r.Failure? <==> FirstInvalid(a, today).Some?
      ensures r.Failure? ==> r.error == FirstInvalid(a, today).value
      ensures r.Success? ==> fresh(r.value) && r.value.Columns() == Stored(a) && WellFormed(r.value.Columns(), today)
    {
      var e := FirstInvalid(a, today);
      if e.Some? {
        return Failure(e.value);
      }
      var item := new InventoryItem(a, today);
      return Success(item);
    }

    // The setters store their argument unchecked: none of the constructor's guards runs again.

    method SetId(id: int)
      modifies this
      ensures this.id == id && Columns() == old(Columns())
    {
      this.id := id;
    }

    method SetProduct(product: Option<Product>)
      modifies this
      ensures Columns() == old(Columns()).(product := product) && id == old(id)
    {
      this.product := product;
    }

    method SetProductId(productId: Option<string>)
      modifies this
      ensures Columns() == old(Columns()).(productId := productId) && id == old(id)
    {
      this.productId := productId;
    }

    method SetBusinessId(businessId: Option<int>)
      modifies this
      ensures Columns() == old(Columns()).(businessId := businessId) && id == old(id)
    {
      this.businessId := businessId;
    }

    method SetQuantity(quantity: Option<int>)
      modifies this
      ensures Columns() == old(Columns()).(quantity := quantity) && id == old(id)
    {
      this.quantity := quantity;
    }

    method SetPricePerItem(pricePerItem: Option<real>)
      modifies this
      ensures Columns() == old(Columns()).(pricePerItem := pricePerItem) && id == old(id)
    {
      this.pricePerItem := pricePerItem;
    }

    method SetTotalPrice(totalPrice: Option<real>)
      modifies this
      ensures Columns() == old(Columns()).(totalPrice := totalPrice) && id == old(id)
    {
      this.totalPrice := totalPrice;
    }

    method SetManufactured(manufactured: Option<int>)
      modifies this
      ensures Columns() == old(Columns()).(manufactured := manufactured) && id == old(id)
    {
      this.manufactured := manufactured;
    }

    method SetSellBy(sellBy: Option<int>)
      modifies this
      ensures Columns() == old(Columns()).(sellBy := sellBy) && id == old(id)
    {
      this.sellBy := sellBy;
    }

    method SetBestBefore(bestBefore: Option<int>)
      modifies this
      ensures Columns() == old(Columns()).(bestBefore := bestBefore) && id == old(id)
    {
      this.bestBefore := bestBefore;
    }

    method SetExpires(expires: Option<int>)
      modifies this
      ensures Columns() == old(Columns()).(expires := expires) && id == old(id)
    {
      this.expires := expires;
    }
  }

  /** The setters bypass the guards: a well-formed item can be given a quantity the constructor refuses. */
  method SetterBypassesGuards(p: Product, today: int) returns (item: InventoryItem)
    ensures !WellFormed(item.Columns(), today) && item.quantity == Some(0)
  {
    var a := ItemArgs(Some(p), Some(p.productId), Some(1), None, None, None, None, None, Some(today));
    item := new InventoryItem(a, today);
    item.SetQuantity(Some(0));
  }
}
