// The Customer schema validators and the uniqueness of phone numbers.

module CustomerModel {
  import opened Common

  const MinAge: int := 16
  const Genders: seq<string> := ["Male", "Female", "Other"]

  datatype Customer = Customer(
    id: Id,
    name: string,
    age: Option<int>,
    gender: Option<string>,
    address: string,
    phone: string,
    passwordHash: string)

  /** What `save()` checks: required fields, the age minimum, the gender enum and the phone pattern. */
  predicate ValidCustomer(c: Customer) {
    && c.name != ""
    && c.address != ""
    && c.passwordHash != ""
    && TenDigits(c.phone)
    && (c.age.Some? ==> c.age.value >= MinAge)
    && (c.gender.Some? ==> c.gender.value in Genders)
  }

  /** The unique index on `phone`. */
  predicate UniquePhones(cs: seq<Customer>) {
    forall i, j :: 0 <= i < j < |cs| ==> cs[i].phone != cs[j].phone
  }
}
