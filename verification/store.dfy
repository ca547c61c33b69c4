/**
 * The shop's collections, held by one store object that the services update
 * in place.
 */
module Db {
  import opened Schemas

  class Store {
    var options: map<OptionId, CatalogOption>
    var products: map<ProductId, Product>
    var coupons: seq<Coupon>      // in collection order, which `findOne` follows
    var rules: seq<DiscountRule>
    var orders: map<OrderId, Order>

    constructor(options: map<OptionId, CatalogOption>, products: map<ProductId, Product>,
                coupons: seq<Coupon>, rules: seq<DiscountRule>, orders: map<OrderId, Order>)
      ensures this.options == options && this.products == products && this.coupons == coupons
      ensures this.rules == rules && this.orders == orders
    {
      this.options := options;
      this.products := products;
      this.coupons := coupons;
      this.rules := rules;
      this.orders := orders;
    }
  }
}
