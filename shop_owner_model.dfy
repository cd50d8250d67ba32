// The ShopOwner schema validators and its two unique keys.

module ShopOwnerModel {
  import opened Common

  datatype ShopOwner = ShopOwner(
    id: Id,
    shopName: string,
    ownerName: string,
    registrationId: string,
    category: string,
    phone: string,
    passwordHash: string)

  predicate ValidShopOwner(o: ShopOwner) {
    && o.shopName != ""
    && o.ownerName != ""
    && o.registrationId != ""
    && o.category != ""
    && o.passwordHash != ""
    && TenDigits(o.phone)
  }

  /** The unique indexes on `shopName` and on `registrationId`. */
  predicate UniqueOwnerKeys(os: seq<ShopOwner>) {
    forall i, j :: 0 <= i < j < |os| ==>
      os[i].shopName != os[j].shopName && os[i].registrationId != os[j].registrationId
  }
}
