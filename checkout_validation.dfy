/** The address schema of the checkout form (src/lib/validations/checkout.ts)
    as predicates, and its use by the order action, which reads each field
    from form data (where a missing field is null). */
module CheckoutValidation {
  import opened Wrappers
  import opened Strings

  /** The regular expression ^\d{n}$ (JavaScript's \d is [0-9]). */
  function DigitsOfLength(s: string, n: nat): (r: bool)
    ensures r <==> |s| == n && forall i :: 0 <= i < |s| ==> IsDigit(s[i])
  {
    if s == [] then n == 0
    else n > 0 && IsDigit(s[0]) && DigitsOfLength(s[1..], n - 1)
  }

  /** ^\d{6}$ */
  predicate IsPincode(s: string) { DigitsOfLength(s, 6) }

  /** ^[6-9]\d{9}$ */
  predicate IsPhone(s: string)
  {
    s != [] && '6' <= s[0] <= '9' && DigitsOfLength(s[1..], 9)
  }

  /** An address as the schema types it; addressLine2 is optional (undefined is None). */
  datatype Address = Address(
    fullName: string,
    addressLine1: string,
    addressLine2: Option<string>,
    city: string,
    state: string,
    pincode: string,
    phone: string)

  /** addressSchema: the minimum lengths and the two digit patterns. */
  predicate ValidAddress(a: Address)
  {
    |a.fullName| >= 2 && |a.addressLine1| >= 5 && |a.city| >= 2 && |a.state| >= 2
    && IsPincode(a.pincode) && IsPhone(a.phone)
  }

  /** The second address line never decides acceptance. */
  lemma AddressLine2NeverRejects(a: Address, line2: Option<string>)
    ensures ValidAddress(a) == ValidAddress(a.(addressLine2 := line2))
  {
  }

  /** A valid phone has ten decimal digits and starts with 6, 7, 8 or 9;
      a valid pincode has six decimal digits. */
  lemma AcceptedPhoneAndPincode(a: Address)
    requires ValidAddress(a)
    ensures |a.phone| == 10 && '6' <= a.phone[0] <= '9'
    ensures forall i :: 0 <= i < 10 ==> IsDigit(a.phone[i])
    ensures |a.pincode| == 6 && forall i :: 0 <= i < 6 ==> IsDigit(a.pincode[i])
  {
    assert forall i :: 1 <= i < 10 ==> a.phone[i] == a.phone[1..][i - 1];
  }

  /** The address fields as FormData.get returns them (None is null). */
  datatype AddressForm = AddressForm(
    fullName: Option<string>,
    addressLine1: Option<string>,
    addressLine2: Option<string>,
    city: Option<string>,
    state: Option<string>,
    pincode: Option<string>,
    phone: Option<string>)

  const NULL_STRING_MSG := "Expected string, received null"
  const ADDRESS_LINE1_MSG := "Address is required"
  const INVALID_ADDRESS_MSG := "Invalid address"

  predicate AllPresent(f: AddressForm)
  {
    f.fullName.Some? && f.addressLine1.Some? && f.addressLine2.Some? && f.city.Some?
    && f.state.Some? && f.pincode.Some? && f.phone.Some?
  }

  /** addressSchema.safeParse on the form fields, and the message the order
      action reports: the first error of addressLine1, else "Invalid address".
      A null addressLine2 is rejected too: `.optional()` admits undefined only. */
  function ParseAddress(f: AddressForm): (r: Result<Address, string>)
    ensures r.Ok? <==> AllPresent(f) && ValidAddress(
      Address(f.fullName.value, f.addressLine1.value, f.addressLine2, f.city.value,
              f.state.value, f.pincode.value, f.phone.value))
    ensures r.Ok? ==> (r.value.fullName == f.fullName.value && r.value.addressLine1 == f.addressLine1.value
      && r.value.addressLine2 == f.addressLine2 && r.value.city == f.city.value
      && r.value.state == f.state.value && r.value.pincode == f.pincode.value && r.value.phone == f.phone.value)
    ensures r.Err? && f.addressLine1.None? ==> r.error == NULL_STRING_MSG
    ensures r.Err? && f.addressLine1.Some? && |f.addressLine1.value| < 5 ==> r.error == ADDRESS_LINE1_MSG
    ensures r.Err? && f.addressLine1.Some? && |f.addressLine1.value| >= 5 ==> r.error == INVALID_ADDRESS_MSG
  {
    if f.addressLine1.None? then Err(NULL_STRING_MSG)
    else if |f.addressLine1.value| < 5 then Err(ADDRESS_LINE1_MSG)
    else if !AllPresent(f) then Err(INVALID_ADDRESS_MSG)
    else
      var a := Address(f.fullName.value, f.addressLine1.value, f.addressLine2, f.city.value,
                       f.state.value, f.pincode.value, f.phone.value);
      if ValidAddress(a) then Ok(a) else Err(INVALID_ADDRESS_MSG)
  }
}
