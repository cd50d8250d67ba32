// Types shared by the ShopLink backend routes and the browser client.

module Common {

  datatype Option<+T> = None | Some(value: T) {
    function GetOr(default: T): T {
      if Some? then value else default
    }
  }

  datatype Result<+T, +E> = Ok(value: T) | Err(error: E)

  /** A MongoDB ObjectId. The model draws every new id from one counter. */
  type Id = nat

  /** JavaScript truthiness of an optional string field: `undefined` and `""` are falsy. */
  predicate Truthy(s: Option<string>) {
    s.Some? && s.value != ""
  }

  /** An error response `res.status(status).json({ message })`. */
  datatype HttpError = HttpError(status: nat, message: string)

  /** One `{ productId, quantity }` line of a checkout request. */
  datatype CartLine = CartLine(productId: Id, quantity: int)

  /** The `type` claim of a token: only the two literals the login routes sign. */
  datatype UserType = CustomerUser | OwnerUser

  /** The decoded token payload `{ id, type }` that becomes `req.user`. */
  datatype TokenPayload = TokenPayload(id: Id, userType: UserType)

  /** The `user` object a login response carries and the client persists. */
  datatype UserInfo =
    | CustomerInfo(id: Id, name: string, phone: string)
    | OwnerInfo(id: Id, shopName: string, registrationId: string)

  predicate IsDigit(c: char) {
    '0' <= c <= '9'
  }

  /** The schema pattern `/^\d{10}$/` for phone numbers. */
  predicate TenDigits(s: string) {
    |s| == 10 && forall i :: 0 <= i < |s| ==> IsDigit(s[i])
  }
}
