/** The product and custom-field schemas (src/lib/validations/product.ts)
    as predicates, with safeParse's default for `images`. */
module ProductValidation {
  import opened Wrappers
  import opened Strings

  datatype CustomFieldInput = CustomFieldInput(
    key: string,
    labelText: string,
    fieldType: string,
    required: Option<bool>,
    placeholder: Option<string>)

  /** customFieldSchema: non-empty key and label (field `labelText`, since `label` is a Dafny keyword), type text, textarea or number;
      required and placeholder are optional. */
  predicate ValidCustomField(f: CustomFieldInput)
  {
    |f.key| >= 1 && |f.labelText| >= 1 && f.fieldType in ["text", "textarea", "number"]
  }

  function AllValidCustomFields(fs: seq<CustomFieldInput>): (r: bool)
    ensures r <==> forall i :: 0 <= i < |fs| ==> ValidCustomField(fs[i])
  {
    if fs == [] then true else ValidCustomField(fs[0]) && AllValidCustomFields(fs[1..])
  }

  predicate IsHttpUrl(s: string)
  {
    StartsAt(s, "http://", 0) || StartsAt(s, "https://", 0)
  }

  function AllHttpUrls(images: seq<string>): (r: bool)
    ensures r <==> forall i :: 0 <= i < |images| ==> IsHttpUrl(images[i])
  {
    if images == [] then true else IsHttpUrl(images[0]) && AllHttpUrls(images[1..])
  }

  /** A product as submitted; None is an absent (undefined) key. */
  datatype ProductInput = ProductInput(
    name: string,
    description: Option<string>,
    price: int,
    stock: int,
    images: Option<seq<string>>,
    videoUrl: Option<string>,
    customFields: Option<seq<CustomFieldInput>>)

  /** A product as the schema outputs it: images always present. */
  datatype ProductData = ProductData(
    name: string,
    description: Option<string>,
    price: int,
    stock: int,
    images: seq<string>,
    videoUrl: Option<string>,
    customFields: Option<seq<CustomFieldInput>>)

  /** productSchema.safeParse. The URL test behind `z.string().url()` is the
      library's own and is taken as the parameter `isUrl`. */
  function ParseProduct(p: ProductInput, isUrl: string -> bool): (r: Option<ProductData>)
    ensures r.Some? <==>
      |p.name| >= 1 && p.price > 0 && p.stock >= 0
      && (p.images.Some? ==> forall i :: 0 <= i < |p.images.value| ==> IsHttpUrl(p.images.value[i]))
      && (p.videoUrl.Some? ==> p.videoUrl.value == "" || isUrl(p.videoUrl.value))
      && (p.customFields.Some? ==> forall i :: 0 <= i < |p.customFields.value| ==> ValidCustomField(p.customFields.value[i]))
    ensures r.Some? ==> r.value.stock >= 0 && r.value.price > 0 && |r.value.name| >= 1
    ensures r.Some? ==> r.value.images == (if p.images.Some? then p.images.value else [])
    ensures r.Some? ==> forall i :: 0 <= i < |r.value.images| ==> IsHttpUrl(r.value.images[i])
    ensures r.Some? ==> (r.value.description == p.description && r.value.customFields == p.customFields
      && r.value.videoUrl == p.videoUrl && r.value.name == p.name)
  {
    var imagesOk := p.images.None? || AllHttpUrls(p.images.value);
    var videoOk := p.videoUrl.None? || p.videoUrl.value == "" || isUrl(p.videoUrl.value);
    var fieldsOk := p.customFields.None? || AllValidCustomFields(p.customFields.value);
    if |p.name| >= 1 && p.price > 0 && p.stock >= 0 && imagesOk && videoOk && fieldsOk then
      Some(ProductData(p.name, p.description, p.price, p.stock,
                       if p.images.Some? then p.images.value else [], p.videoUrl, p.customFields))
    else None
  }
}
