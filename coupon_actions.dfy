/** The admin actions on the coupon table (src/app/actions/coupon.ts):
    create, toggle and delete, each behind the ADMIN check. The table is the
    store's `coupons` field; the actions keep its codes unique and
    upper-cased. */
module CouponActions {
  import opened Wrappers
  import opened Strings
  import opened Schema

  /** CouponActionResult. */
  datatype CouponResult = CouponResult(success: bool, error: Option<string>, couponId: Option<string>)

  function CouponFailure(msg: string): CouponResult
  {
    CouponResult(false, Some(msg), None)
  }

  const CREATE_ADMIN_MSG := "Only admin can create coupons"
  const UPDATE_ADMIN_MSG := "Only admin can update coupons"
  const DELETE_ADMIN_MSG := "Only admin can delete coupons"
  const REQUIRED_MSG := "Code, discount type, and discount value are required"
  const CODE_EXISTS_MSG := "Coupon code already exists"
  const CREATE_FAILED_MSG := "Failed to create coupon"
  const UPDATE_FAILED_MSG := "Failed to update coupon"
  const DELETE_FAILED_MSG := "Failed to delete coupon"

  // ------------------------------------------------------------------ create

  /** What parseFloat or parseInt made of a field: a number or NaN (an
      Invalid Date has the time value NaN too). */
  datatype Parsed = NaN | Num(n: int)

  /** A form field with a numeric reading: its text and the number parsed
      from it. */
  datatype Field = Field(text: string, parsed: Parsed)

  /** The create form as FormData.get returns it (None is null);
      discountValue is parseFloat of its field, NaN when the field is null. */
  datatype CouponForm = CouponForm(
    code: Option<string>,
    description: Option<string>,
    discountType: Option<string>,
    discountValue: Parsed,
    minOrderValue: Option<Field>,
    maxDiscount: Option<Field>,
    usageLimit: Option<Field>,
    expiresAt: Option<Field>)

  predicate NonBlank(s: Option<string>) { s.Some? && s.value != "" }

  /** A field whose text is truthy, and so is stored. */
  predicate Present(f: Option<Field>) { f.Some? && f.value.text != "" }

  /** The guard `!code || !discountType || !discountValue` passes: upper-casing
      keeps the length, so the code is truthy iff the input is, and a
      discount of 0 or NaN is falsy. */
  predicate HasRequired(form: CouponForm)
  {
    NonBlank(form.code) && NonBlank(form.discountType) && form.discountValue.Num? && form.discountValue.n != 0
  }

  /** A present field that did not parse cannot be written to its column. */
  predicate Writable(f: Option<Field>) { !Present(f) || f.value.parsed.Num? }

  predicate AllWritable(form: CouponForm)
  {
    Writable(form.minOrderValue) && Writable(form.maxDiscount) && Writable(form.usageLimit) && Writable(form.expiresAt)
  }

  /** The column value of an optional field: null when its text is falsy. */
  function Stored(f: Option<Field>): (r: Option<int>)
    requires Writable(f)
    ensures r.None? <==> !Present(f)
    ensures r.Some? ==> f.value.parsed == Num(r.value)
  {
    if Present(f) then Some(f.value.parsed.n) else None
  }

  /** The row prisma.coupon.create writes: the code upper-cased, a blank
      description null, the coupon active and, by the column's default, not
      yet used. */
  function NewCoupon(form: CouponForm, id: string): (c: Coupon)
    requires HasRequired(form) && AllWritable(form)
    ensures c.id == id && c.code == ToUpper(form.code.value) && IsUpperCased(c.code) && c.code != ""
    ensures c.isActive && c.usedCount == 0
    ensures c.description.None? <==> !NonBlank(form.description)
    ensures c.discountType == form.discountType.value && Num(c.discountValue) == form.discountValue
    ensures c.minOrderValue.None? <==> !Present(form.minOrderValue)
    ensures c.maxDiscount.None? <==> !Present(form.maxDiscount)
    ensures c.usageLimit.None? <==> !Present(form.usageLimit)
    ensures c.expiresAt.None? <==> !Present(form.expiresAt)
  {
    ToUpperIsUpperCased(form.code.value);
    Coupon(id, ToUpper(form.code.value),
           if NonBlank(form.description) then form.description else None,
           form.discountType.value, form.discountValue.n,
           Stored(form.minOrderValue), Stored(form.maxDiscount), Stored(form.usageLimit),
           0, true, Stored(form.expiresAt))
  }

  /** A row whose id and code are both new keeps the table's ids and codes
      unique. */
  lemma AppendKeepsUnique(coupons: seq<Coupon>, c: Coupon)
    requires UniqueCoupons(coupons)
    requires CouponByCode(coupons, c.code).None? && CouponIndexById(coupons, c.id).None?
    ensures UniqueCoupons(coupons + [c])
  {
    var t := coupons + [c];
    forall i, j | 0 <= i < j < |t|
      ensures t[i].id != t[j].id && t[i].code != t[j].code
    {
      if j == |coupons| {
        assert t[i] == coupons[i] && t[j] == c;
        assert coupons[i] in coupons;
      } else {
        assert t[i] == coupons[i] && t[j] == coupons[j];
      }
    }
  }

  /** Once a code is created, creating it again, in any letter case, finds
      it and fails. */
  lemma CreatedCodeBlocksAnother(coupons: seq<Coupon>, form: CouponForm, id: string, code: string)
    requires HasRequired(form) && AllWritable(form)
    requires ToUpper(code) == ToUpper(form.code.value)
    ensures CouponByCode(coupons + [NewCoupon(form, id)], ToUpper(code)).Some?
  {
    var c := NewCoupon(form, id);
    assert (coupons + [c])[|coupons|] == c;
    assert c in coupons + [c];
  }

  /** createCouponAction. newId is the id the database generates. */
  method CreateCoupon(db: Store, session: Option<SessionUser>, form: CouponForm, newId: string)
    returns (r: CouponResult)
    requires db.Valid()
    modifies db
    ensures db.Valid()
    ensures db.users == old(db.users) && db.products == old(db.products)
    ensures db.orders == old(db.orders) && db.orderItems == old(db.orderItems)
    ensures !IsAdmin(session) ==> r == CouponFailure(CREATE_ADMIN_MSG) && db.coupons == old(db.coupons)
    ensures IsAdmin(session) && !HasRequired(form) ==> r == CouponFailure(REQUIRED_MSG) && db.coupons == old(db.coupons)
    ensures IsAdmin(session) && HasRequired(form) && CouponByCode(old(db.coupons), ToUpper(form.code.value)).Some? ==>
      r == CouponFailure(CODE_EXISTS_MSG) && db.coupons == old(db.coupons)
    ensures IsAdmin(session) && HasRequired(form) && CouponByCode(old(db.coupons), ToUpper(form.code.value)).None?
            && (!AllWritable(form) || CouponIndexById(old(db.coupons), newId).Some?) ==>
      r == CouponFailure(CREATE_FAILED_MSG) && db.coupons == old(db.coupons)
    ensures IsAdmin(session) && HasRequired(form) && CouponByCode(old(db.coupons), ToUpper(form.code.value)).None?
            && AllWritable(form) && CouponIndexById(old(db.coupons), newId).None? ==>
      r == CouponResult(true, None, Some(newId)) && db.coupons == old(db.coupons) + [NewCoupon(form, newId)]
  {
    if !IsAdmin(session) {
      return CouponFailure(CREATE_ADMIN_MSG);
    }
    if !HasRequired(form) {
      return CouponFailure(REQUIRED_MSG);
    }
    var code := ToUpper(form.code.value);
    var existing := CouponByCode(db.coupons, code);
    if existing.Some? {
      return CouponFailure(CODE_EXISTS_MSG);
    }
    if !AllWritable(form) || CouponIndexById(db.coupons, newId).Some? {
      return CouponFailure(CREATE_FAILED_MSG);
    }
    var coupon := NewCoupon(form, newId);
    AppendKeepsUnique(db.coupons, coupon);
    db.coupons := db.coupons + [coupon];
    r := CouponResult(true, None, Some(newId));
  }

  // ------------------------------------------------------------------ toggle

  /** The table with isActive set on the rows with that id. */
  function SetActive(coupons: seq<Coupon>, id: string, isActive: bool): seq<Coupon>
  {
    seq(|coupons|, i requires 0 <= i < |coupons| =>
      if coupons[i].id == id then coupons[i].(isActive := isActive) else coupons[i])
  }

  /** Toggling to the same value twice is toggling once. */
  lemma SetActiveIdempotent(coupons: seq<Coupon>, id: string, isActive: bool)
    ensures SetActive(SetActive(coupons, id, isActive), id, isActive) == SetActive(coupons, id, isActive)
  {
  }

  /** Toggling changes isActive on the row with that id and nothing else;
      the ids and codes, and so the invariant, are kept. */
  lemma SetActiveChangesOnlyThatRow(coupons: seq<Coupon>, id: string, isActive: bool)
    ensures var r := SetActive(coupons, id, isActive);
      && |r| == |coupons|
      && (forall i :: 0 <= i < |r| && coupons[i].id != id ==> r[i] == coupons[i])
      && (forall i :: 0 <= i < |r| && coupons[i].id == id ==> r[i].isActive == isActive
                                                               && r[i].(isActive := coupons[i].isActive) == coupons[i])
    ensures UniqueCoupons(coupons) ==> UniqueCoupons(SetActive(coupons, id, isActive))
  {
  }

  /** With unique ids, updating the row found by id is the table-wide update. */
  lemma UpdateAtIsSetActive(coupons: seq<Coupon>, k: nat, isActive: bool)
    requires UniqueCoupons(coupons) && k < |coupons|
    ensures coupons[k := coupons[k].(isActive := isActive)] == SetActive(coupons, coupons[k].id, isActive)
  {
    var r := SetActive(coupons, coupons[k].id, isActive);
    forall i | 0 <= i < |coupons|
      ensures coupons[k := coupons[k].(isActive := isActive)][i] == r[i]
    {
      if i != k {
        assert coupons[i].id != coupons[k].id by {
          if i < k { assert coupons[i].id != coupons[k].id; } else { assert coupons[k].id != coupons[i].id; }
        }
      }
    }
  }

  /** toggleCouponStatusAction: prisma.coupon.update on the id, which throws
      when no row has it. */
  method ToggleCouponStatus(db: Store, session: Option<SessionUser>, couponId: string, isActive: bool)
    returns (r: CouponResult)
    requires db.Valid()
    modifies db
    ensures db.Valid()
    ensures db.users == old(db.users) && db.products == old(db.products)
    ensures db.orders == old(db.orders) && db.orderItems == old(db.orderItems)
    ensures !IsAdmin(session) ==> r == CouponFailure(UPDATE_ADMIN_MSG) && db.coupons == old(db.coupons)
    ensures IsAdmin(session) && CouponIndexById(old(db.coupons), couponId).None? ==>
      r == CouponFailure(UPDATE_FAILED_MSG) && db.coupons == old(db.coupons)
    ensures IsAdmin(session) && CouponIndexById(old(db.coupons), couponId).Some? ==>
      r == CouponResult(true, None, Some(couponId)) && db.coupons == SetActive(old(db.coupons), couponId, isActive)
  {
    if !IsAdmin(session) {
      return CouponFailure(UPDATE_ADMIN_MSG);
    }
    var k := CouponIndexById(db.coupons, couponId);
    if k.None? {
      return CouponFailure(UPDATE_FAILED_MSG);
    }
    var i := k.value;
    UpdateAtIsSetActive(db.coupons, i, isActive);
    SetActiveChangesOnlyThatRow(db.coupons, couponId, isActive);
    db.coupons := db.coupons[i := db.coupons[i].(isActive := isActive)];
    r := CouponResult(true, None, Some(couponId));
  }

  // ------------------------------------------------------------------ delete

  /** The table without the rows that have that id, in order. */
  function RemoveCoupon(coupons: seq<Coupon>, id: string): (r: seq<Coupon>)
    ensures |r| <= |coupons|
  {
    if coupons == [] then []
    else (if coupons[0].id == id then [] else [coupons[0]]) + RemoveCoupon(coupons[1..], id)
  }

  /** After a delete no row has the id, and every other row is still there. */
  lemma {:induction false} RemoveCouponContents(coupons: seq<Coupon>, id: string)
    ensures forall c :: c in RemoveCoupon(coupons, id) <==> c in coupons && c.id != id
  {
    if coupons != [] {
      RemoveCouponContents(coupons[1..], id);
      assert coupons == [coupons[0]] + coupons[1..];
    }
  }

  /** Removing a row found by id takes exactly one row away. */
  lemma {:induction false} RemoveCouponAt(coupons: seq<Coupon>, k: nat)
    requires UniqueCoupons(coupons) && k < |coupons|
    ensures RemoveCoupon(coupons, coupons[k].id) == coupons[..k] + coupons[k + 1..]
    ensures |RemoveCoupon(coupons, coupons[k].id)| == |coupons| - 1
  {
    var id := coupons[k].id;
    var tail := coupons[1..];
    UniqueTail(coupons);
    if k == 0 {
      assert forall i :: 0 <= i < |tail| ==> tail[i].id != id by {
        forall i | 0 <= i < |tail| ensures tail[i].id != id { assert tail[i] == coupons[i + 1]; }
      }
      RemoveAbsent(tail, id);
      assert RemoveCoupon(coupons, id) == [] + RemoveCoupon(tail, id);
      assert coupons[..0] + coupons[1..] == tail;
    } else {
      assert coupons[0].id != id;
      assert tail[k - 1] == coupons[k];
      RemoveCouponAt(tail, k - 1);
      assert RemoveCoupon(coupons, id) == [coupons[0]] + RemoveCoupon(tail, id);
      assert coupons[..k] == [coupons[0]] + tail[..k - 1];
      assert coupons[k + 1..] == tail[k..];
    }
  }

  /** The rows after the first are unique too. */
  lemma UniqueTail(coupons: seq<Coupon>)
    requires UniqueCoupons(coupons) && coupons != []
    ensures UniqueCoupons(coupons[1..])
  {
    var tail := coupons[1..];
    forall i, j | 0 <= i < j < |tail|
      ensures tail[i].id != tail[j].id && tail[i].code != tail[j].code
    {
      assert tail[i] == coupons[i + 1] && tail[j] == coupons[j + 1];
    }
  }

  /** Removing an id no row has changes nothing. */
  lemma {:induction false} RemoveAbsent(coupons: seq<Coupon>, id: string)
    requires forall i :: 0 <= i < |coupons| ==> coupons[i].id != id
    ensures RemoveCoupon(coupons, id) == coupons
  {
    if coupons != [] {
      RemoveAbsent(coupons[1..], id);
    }
  }

  /** Removing rows keeps ids and codes unique. */
  lemma UniqueAfterRemoval(coupons: seq<Coupon>, k: nat)
    requires UniqueCoupons(coupons) && k < |coupons|
    ensures UniqueCoupons(coupons[..k] + coupons[k + 1..])
    ensures forall i :: 0 <= i < k ==> (coupons[..k] + coupons[k + 1..])[i] == coupons[i]
    ensures forall j :: k < j < |coupons| ==> (coupons[..k] + coupons[k + 1..])[j - 1] == coupons[j]
  {
  }

  /** deleteCouponAction: prisma.coupon.delete on the id, which throws when
      no row has it. */
  method DeleteCoupon(db: Store, session: Option<SessionUser>, couponId: string) returns (r: CouponResult)
    requires db.Valid()
    modifies db
    ensures db.Valid()
    ensures db.users == old(db.users) && db.products == old(db.products)
    ensures db.orders == old(db.orders) && db.orderItems == old(db.orderItems)
    ensures !IsAdmin(session) ==> r == CouponFailure(DELETE_ADMIN_MSG) && db.coupons == old(db.coupons)
    ensures IsAdmin(session) && CouponIndexById(old(db.coupons), couponId).None? ==>
      r == CouponFailure(DELETE_FAILED_MSG) && db.coupons == old(db.coupons)
    ensures IsAdmin(session) && CouponIndexById(old(db.coupons), couponId).Some? ==>
      && r == CouponResult(true, None, Some(couponId))
      && db.coupons == RemoveCoupon(old(db.coupons), couponId)
      && |db.coupons| == |old(db.coupons)| - 1
  {
    if !IsAdmin(session) {
      return CouponFailure(DELETE_ADMIN_MSG);
    }
    var k := CouponIndexById(db.coupons, couponId);
    if k.None? {
      return CouponFailure(DELETE_FAILED_MSG);
    }
    var i := k.value;
    RemoveCouponAt(db.coupons, i);
    UniqueAfterRemoval(db.coupons, i);
    db.coupons := db.coupons[..i] + db.coupons[i + 1..];
    r := CouponResult(true, None, Some(couponId));
  }
}
