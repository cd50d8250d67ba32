// Registration and login for customers and shop owners. Password hashing,
// hash comparison and token signing are library calls the model takes as
// function parameters.

module AuthRoutes {
  import opened Common
  import opened CustomerModel
  import opened ShopOwnerModel
  import opened Store

  /** `bcrypt.hash(password, salt)` with the salt already drawn. */
  type Hasher = string -> string
  /** `bcrypt.compare(password, passwordHash)`. */
  type Comparer = (string, string) -> bool
  /** `jwt.sign(payload, secret, { expiresIn: '1d' })`. */
  type Signer = TokenPayload -> string

  const InvalidCredentials: HttpError := HttpError(400, "Invalid credentials.")

  // ---------------------------------------------------------------------------
  // Lookups (`findOne`)
  // ---------------------------------------------------------------------------

  /** The first customer with this phone, as `findOne({ phone })` returns it. */
  function CustomerWithPhone(customers: seq<Customer>, phone: string): (r: Option<nat>)
    ensures r.Some? ==> r.value < |customers| && customers[r.value].phone == phone
    ensures r.Some? ==> forall i :: 0 <= i < r.value ==> customers[i].phone != phone
    ensures r.None? ==> forall i :: 0 <= i < |customers| ==> customers[i].phone != phone
  {
    if customers == [] then None
    else if customers[0].phone == phone then Some(0)
    else
      var rest := CustomerWithPhone(customers[1..], phone);
      if rest.Some? then Some(rest.value + 1) else None
  }

  /** The lookup loop behind `findOne({ phone })`. */
  method FindCustomerByPhone(customers: seq<Customer>, phone: string) returns (r: Option<nat>)
    ensures r == CustomerWithPhone(customers, phone)
  {
    var i := 0;
    while i < |customers|
      invariant 0 <= i <= |customers|
      invariant forall j :: 0 <= j < i ==> customers[j].phone != phone
    {
      if customers[i].phone == phone {
        FirstMatchIsTheLookup(customers, phone, i);
        return Some(i);
      }
      i := i + 1;
    }
    return None;
  }

  lemma FirstMatchIsTheLookup(customers: seq<Customer>, phone: string, i: nat)
    requires i < |customers| && customers[i].phone == phone
    requires forall j :: 0 <= j < i ==> customers[j].phone != phone
    ensures CustomerWithPhone(customers, phone) == Some(i)
  {
    var r := CustomerWithPhone(customers, phone);
    assert r.Some?;
  }

  /** With the unique index on `phone`, the customer found is the only one with that phone. */
  lemma UniquePhoneLookup(customers: seq<Customer>, i: nat)
    requires UniquePhones(customers) && i < |customers|
    ensures CustomerWithPhone(customers, customers[i].phone) == Some(i)
  {
    var r := CustomerWithPhone(customers, customers[i].phone);
    assert r.Some?;
  }

  /** The first owner matching the query: by registration id, or also by shop name when one is given. */
  function OwnerWhere(owners: seq<ShopOwner>, registrationId: string, shopName: Option<string>): (r: Option<nat>)
    ensures r.Some? ==> r.value < |owners| && OwnerMatches(owners[r.value], registrationId, shopName)
    ensures r.Some? ==> forall i :: 0 <= i < r.value ==> !OwnerMatches(owners[i], registrationId, shopName)
    ensures r.None? ==> forall i :: 0 <= i < |owners| ==> !OwnerMatches(owners[i], registrationId, shopName)
  {
    if owners == [] then None
    else if OwnerMatches(owners[0], registrationId, shopName) then Some(0)
    else
      var rest := OwnerWhere(owners[1..], registrationId, shopName);
      if rest.Some? then Some(rest.value + 1) else None
  }

  /** `{ registrationId }`, or `{ $or: [{ registrationId }, { shopName }] }` when `shopName` is given. */
  predicate OwnerMatches(o: ShopOwner, registrationId: string, shopName: Option<string>) {
    o.registrationId == registrationId || (shopName.Some? && o.shopName == shopName.value)
  }

  // ---------------------------------------------------------------------------
  // POST /customer/register
  // ---------------------------------------------------------------------------

  /** The body of a customer registration; `None` is an undefined field. */
  datatype CustomerForm = CustomerForm(
    name: Option<string>,
    age: Option<int>,
    gender: Option<string>,
    address: Option<string>,
    phone: Option<string>,
    password: Option<string>)

  const MissingCustomerFields: HttpError := HttpError(400, "Missing required fields.")
  const PhoneTaken: HttpError := HttpError(400, "Customer with this phone number already exists.")
  const CustomerRejected: HttpError :=
    HttpError(500, "Server error during registration. Check phone format or missing fields.")

  /**
   * The registration decision: the required-field check, the duplicate-phone
   * check, then the document `save()` validates, stored under `id`.
   */
  function CustomerToRegister(customers: seq<Customer>, form: CustomerForm, id: Id, hash: Hasher): (r: Result<Customer, HttpError>)
    ensures r.Ok? ==> ValidCustomer(r.value) && r.value.id == id
    ensures r.Ok? ==> form.password.Some? && r.value.passwordHash == hash(form.password.value)
    ensures r.Ok? ==> forall i :: 0 <= i < |customers| ==> customers[i].phone != r.value.phone
  {
    if !Truthy(form.phone) || !Truthy(form.password) || !Truthy(form.name) || !Truthy(form.address) then
      Err(MissingCustomerFields)
    else if CustomerWithPhone(customers, form.phone.value).Some? then
      Err(PhoneTaken)
    else
      var c := Customer(id, form.name.value, form.age, form.gender, form.address.value, form.phone.value,
                        hash(form.password.value));
      if ValidCustomer(c) then Ok(c) else Err(CustomerRejected)
  }

  /** The registration errors, case by case, in the order the handler checks them. */
  lemma CustomerRegistrationErrors(customers: seq<Customer>, form: CustomerForm, id: Id, hash: Hasher)
    ensures var r := CustomerToRegister(customers, form, id, hash);
      && ((!Truthy(form.phone) || !Truthy(form.password) || !Truthy(form.name) || !Truthy(form.address))
            <==> r == Err(MissingCustomerFields))
      && (r == Err(PhoneTaken) <==>
            Truthy(form.phone) && Truthy(form.password) && Truthy(form.name) && Truthy(form.address)
            && exists i :: 0 <= i < |customers| && customers[i].phone == form.phone.value)
  {
    var r := CustomerToRegister(customers, form, id, hash);
    if Truthy(form.phone) && CustomerWithPhone(customers, form.phone.value).None? {
      assert !exists i :: 0 <= i < |customers| && customers[i].phone == form.phone.value;
    }
  }

  /** Registering one more customer keeps the phone numbers unique. */
  lemma {:induction false} RegistrationKeepsPhonesUnique(customers: seq<Customer>, form: CustomerForm, id: Id, hash: Hasher)
    requires UniquePhones(customers)
    requires CustomerToRegister(customers, form, id, hash).Ok?
    ensures UniquePhones(customers + [CustomerToRegister(customers, form, id, hash).value])
  {
    var c := CustomerToRegister(customers, form, id, hash).value;
    var next := customers + [c];
    forall i, j | 0 <= i < j < |next| ensures next[i].phone != next[j].phone {
      if j == |customers| {
        assert next[i] == customers[i];
      } else {
        assert next[i] == customers[i] && next[j] == customers[j];
      }
    }
  }

  /** POST /customer/register: on success one customer is appended under the next id; on any error nothing changes. */
  method RegisterCustomer(db: Database, form: CustomerForm, hash: Hasher) returns (r: Result<Id, HttpError>)
    requires db.Valid()
    modifies db`customers, db`nextId
    ensures db.Valid()
    ensures r.Err? ==> (
      && unchanged(db)
      && CustomerToRegister(old(db.customers), form, old(db.nextId), hash).Err?
      && r.error == CustomerToRegister(old(db.customers), form, old(db.nextId), hash).error)
    ensures r.Ok? ==> (
      && CustomerToRegister(old(db.customers), form, old(db.nextId), hash).Ok?
      && r.value == old(db.nextId)
      && db.customers == old(db.customers) + [CustomerToRegister(old(db.customers), form, old(db.nextId), hash).value]
      && db.products == old(db.products) && db.orders == old(db.orders) && db.owners == old(db.owners))
  {
    if !Truthy(form.phone) || !Truthy(form.password) || !Truthy(form.name) || !Truthy(form.address) {
      return Err(MissingCustomerFields);
    }
    var existing := FindCustomerByPhone(db.customers, form.phone.value);
    if existing.Some? {
      return Err(PhoneTaken);
    }
    var passwordHash := hash(form.password.value);
    var customer := Customer(db.nextId, form.name.value, form.age, form.gender, form.address.value,
                             form.phone.value, passwordHash);
    if !ValidCustomer(customer) {
      return Err(CustomerRejected);
    }
    var id := db.nextId;
    db.InsertCustomer(customer);
    return Ok(id);
  }

  // ---------------------------------------------------------------------------
  // POST /customer/login and /owner/login
  // ---------------------------------------------------------------------------

  /** A successful login: the signed token and the `user` object sent back. */
  datatype Login = Login(token: string, user: UserInfo)

  /** `bcrypt.compare` throws on an undefined password, and the handler's catch answers 500. */
  const LoginFailed: HttpError := HttpError(500, "Server error during login.")

  /**
   * POST /customer/login: the same error for an unknown phone and for a wrong
   * password; an undefined password reaches `bcrypt.compare` only for a known phone.
   */
  function CustomerLogin(customers: seq<Customer>, phone: string, password: Option<string>, compare: Comparer, sign: Signer)
    : (r: Result<Login, HttpError>)
    ensures r.Err? ==> r.error == InvalidCredentials || r.error == LoginFailed
    ensures r == Err(LoginFailed) <==> CustomerWithPhone(customers, phone).Some? && password.None?
    ensures r.Ok? <==> password.Some? && exists i :: (
      && 0 <= i < |customers| && customers[i].phone == phone
      && CustomerWithPhone(customers, phone) == Some(i) && compare(password.value, customers[i].passwordHash))
    ensures r.Ok? ==> exists i :: (
      && 0 <= i < |customers| && customers[i].phone == phone
      && r.value.token == sign(TokenPayload(customers[i].id, CustomerUser))
      && r.value.user == CustomerInfo(customers[i].id, customers[i].name, customers[i].phone))
  {
    var found := CustomerWithPhone(customers, phone);
    if found.None? then Err(InvalidCredentials)
    else
      var c := customers[found.value];
      if password.None? then Err(LoginFailed)
      else if !compare(password.value, c.passwordHash) then Err(InvalidCredentials)
      else Ok(Login(sign(TokenPayload(c.id, CustomerUser)), CustomerInfo(c.id, c.name, c.phone)))
  }

  /** An unknown phone and a wrong password are indistinguishable to the caller. */
  lemma LoginFailuresLookAlike(customers: seq<Customer>, unknown: string, known: nat, wrong: string,
                               password: Option<string>, compare: Comparer, sign: Signer)
    requires forall i :: 0 <= i < |customers| ==> customers[i].phone != unknown
    requires UniquePhones(customers) && known < |customers|
    requires !compare(wrong, customers[known].passwordHash)
    ensures CustomerLogin(customers, unknown, password, compare, sign)
         == CustomerLogin(customers, customers[known].phone, Some(wrong), compare, sign)
         == Err(InvalidCredentials)
  {
    UniquePhoneLookup(customers, known);
  }

  /**
   * POST /owner/login: looked up by registration id; the token's type is
   * `'owner'`; an undefined password for a known owner is the 500.
   */
  function OwnerLogin(owners: seq<ShopOwner>, registrationId: string, password: Option<string>, compare: Comparer, sign: Signer)
    : (r: Result<Login, HttpError>)
    ensures r.Err? ==> r.error == InvalidCredentials || r.error == LoginFailed
    ensures r == Err(LoginFailed) <==> OwnerWhere(owners, registrationId, None).Some? && password.None?
    ensures r.Ok? ==> password.Some? && exists i :: (
      && 0 <= i < |owners| && owners[i].registrationId == registrationId
      && compare(password.value, owners[i].passwordHash)
      && r.value.token == sign(TokenPayload(owners[i].id, OwnerUser))
      && r.value.user == OwnerInfo(owners[i].id, owners[i].shopName, owners[i].registrationId))
    ensures (forall i :: 0 <= i < |owners| ==> owners[i].registrationId != registrationId) ==> r.Err?
  {
    var found := OwnerWhere(owners, registrationId, None);
    if found.None? then Err(InvalidCredentials)
    else
      var o := owners[found.value];
      if password.None? then Err(LoginFailed)
      else if !compare(password.value, o.passwordHash) then Err(InvalidCredentials)
      else Ok(Login(sign(TokenPayload(o.id, OwnerUser)), OwnerInfo(o.id, o.shopName, o.registrationId)))
  }

  /** Logging in with the right password of a registered owner succeeds with that owner's token. */
  lemma OwnerLoginSucceeds(owners: seq<ShopOwner>, k: nat, password: string, compare: Comparer, sign: Signer)
    requires UniqueOwnerKeys(owners) && k < |owners|
    requires compare(password, owners[k].passwordHash)
    ensures OwnerLogin(owners, owners[k].registrationId, Some(password), compare, sign)
         == Ok(Login(sign(TokenPayload(owners[k].id, OwnerUser)),
                     OwnerInfo(owners[k].id, owners[k].shopName, owners[k].registrationId)))
  {
    var found := OwnerWhere(owners, owners[k].registrationId, None);
    assert found.Some?;
    assert found.value == k;
  }

  // ---------------------------------------------------------------------------
  // POST /owner/register
  // ---------------------------------------------------------------------------

  datatype OwnerForm = OwnerForm(
    shopName: Option<string>,
    ownerName: Option<string>,
    registrationId: Option<string>,
    category: Option<string>,
    phone: Option<string>,
    password: Option<string>)

  const MissingOwnerFields: HttpError := HttpError(400, "Missing required shop owner fields.")
  const OwnerTaken: HttpError := HttpError(400, "Shop Name or Registration ID already registered.")
  const OwnerRejected: HttpError :=
    HttpError(500, "Server error during owner registration. Check unique fields or phone format.")

  predicate OwnerFormComplete(form: OwnerForm) {
    && Truthy(form.registrationId) && Truthy(form.password) && Truthy(form.shopName)
    && Truthy(form.ownerName) && Truthy(form.category) && Truthy(form.phone)
  }

  function OwnerToRegister(owners: seq<ShopOwner>, form: OwnerForm, id: Id, hash: Hasher): (r: Result<ShopOwner, HttpError>)
    ensures r.Ok? ==> ValidShopOwner(r.value) && r.value.id == id
    ensures r.Ok? ==> form.password.Some? && r.value.passwordHash == hash(form.password.value)
    ensures r.Ok? ==> forall i :: 0 <= i < |owners| ==>
      owners[i].shopName != r.value.shopName && owners[i].registrationId != r.value.registrationId
    ensures !OwnerFormComplete(form) <==> r == Err(MissingOwnerFields)
  {
    if !OwnerFormComplete(form) then Err(MissingOwnerFields)
    else if OwnerWhere(owners, form.registrationId.value, form.shopName).Some? then Err(OwnerTaken)
    else
      var o := ShopOwner(id, form.shopName.value, form.ownerName.value, form.registrationId.value,
                         form.category.value, form.phone.value, hash(form.password.value));
      if ValidShopOwner(o) then Ok(o) else Err(OwnerRejected)
  }

  /** Either key already in use is enough to refuse: a clash on the shop name alone, or on the registration id alone. */
  lemma OwnerClashRefused(owners: seq<ShopOwner>, form: OwnerForm, id: Id, hash: Hasher, k: nat)
    requires OwnerFormComplete(form) && k < |owners|
    requires owners[k].shopName == form.shopName.value || owners[k].registrationId == form.registrationId.value
    ensures OwnerToRegister(owners, form, id, hash) == Err(OwnerTaken)
  {
    assert OwnerMatches(owners[k], form.registrationId.value, form.shopName);
  }

  lemma {:induction false} RegistrationKeepsOwnerKeysUnique(owners: seq<ShopOwner>, form: OwnerForm, id: Id, hash: Hasher)
    requires UniqueOwnerKeys(owners)
    requires OwnerToRegister(owners, form, id, hash).Ok?
    ensures UniqueOwnerKeys(owners + [OwnerToRegister(owners, form, id, hash).value])
  {
    var o := OwnerToRegister(owners, form, id, hash).value;
    var next := owners + [o];
    forall i, j | 0 <= i < j < |next|
      ensures next[i].shopName != next[j].shopName && next[i].registrationId != next[j].registrationId
    {
      if j == |owners| {
        assert next[i] == owners[i];
      } else {
        assert next[i] == owners[i] && next[j] == owners[j];
      }
    }
  }

  method RegisterOwner(db: Database, form: OwnerForm, hash: Hasher) returns (r: Result<Id, HttpError>)
    requires db.Valid()
    modifies db`owners, db`nextId
    ensures db.Valid()
    ensures r.Err? ==> (
      && unchanged(db)
      && OwnerToRegister(old(db.owners), form, old(db.nextId), hash).Err?
      && r.error == OwnerToRegister(old(db.owners), form, old(db.nextId), hash).error)
    ensures r.Ok? ==> (
      && OwnerToRegister(old(db.owners), form, old(db.nextId), hash).Ok?
      && r.value == old(db.nextId)
      && db.owners == old(db.owners) + [OwnerToRegister(old(db.owners), form, old(db.nextId), hash).value]
      && db.products == old(db.products) && db.orders == old(db.orders) && db.customers == old(db.customers))
  {
    if !OwnerFormComplete(form) {
      return Err(MissingOwnerFields);
    }
    if OwnerWhere(db.owners, form.registrationId.value, form.shopName).Some? {
      return Err(OwnerTaken);
    }
    var passwordHash := hash(form.password.value);
    var owner := ShopOwner(db.nextId, form.shopName.value, form.ownerName.value, form.registrationId.value,
                           form.category.value, form.phone.value, passwordHash);
    if !ValidShopOwner(owner) {
      return Err(OwnerRejected);
    }
    var id := db.nextId;
    db.InsertOwner(owner);
    return Ok(id);
  }
}
