/** The product editor of src/components/productForm.jsx: a draft of the entry
    being created or edited (three text fields, the persisted image URLs that
    survive, and the newly staged files), its validation errors, and the
    submission that sends the draft as a multipart form. */
module ProductFormModel {
  import opened Common

  /** A file picked in the file input; the model never looks inside it. */
  type StagedFile

  /** The three text inputs that report changes through the change handler. */
  datatype Field = Sku | Name | Price

  /** The editor's `formData`: `images` are the staged files, `existingImages`
      the URLs of images already stored with the entry. */
  datatype Draft = Draft(sku: string, name: string, price: string, images: seq<StagedFile>, existingImages: seq<string>)

  function EmptyDraft(): Draft {
    Draft("", "", "", [], [])
  }

  /** `selectedProduct.images || []` */
  function ImagesOrEmpty(images: Option<seq<string>>): seq<string> {
    match images
    case Some(urls) => urls
    case None => []
  }

  /** The draft the selection effect installs: the entry's fields and its
      images as the surviving URLs with nothing staged, or the empty draft in
      create mode. */
  function SeedDraft(selected: Option<Product>): Draft {
    match selected
    case Some(p) => Draft(p.sku, p.name, p.price, [], ImagesOrEmpty(p.images))
    case None => EmptyDraft()
  }

  function FieldValue(d: Draft, f: Field): string {
    match f
    case Sku => d.sku
    case Name => d.name
    case Price => d.price
  }

  /** `{ ...prev, [name]: value }`: the named field takes the new value and
      nothing else in the draft moves. */
  function WithField(d: Draft, f: Field, v: string): (r: Draft)
    ensures FieldValue(r, f) == v
    ensures forall g :: g != f ==> FieldValue(r, g) == FieldValue(d, g)
    ensures r.images == d.images && r.existingImages == d.existingImages
  {
    match f
    case Sku => d.(sku := v)
    case Name => d.(name := v)
    case Price => d.(price := v)
  }

  // ---------------------------------------------------------------- validation

  const SkuRequired := "SKU is required"
  const NameRequired := "Name is required"
  const PriceRequired := "Valid price required"

  function Message(f: Field): string {
    match f
    case Sku => SkuRequired
    case Name => NameRequired
    case Price => PriceRequired
  }

  /** Whether validation flags field `f`: a text field whose trimmed value is
      empty, or a price that is empty or that `isNumber` (the browser's
      `!isNaN`) refuses. No sign check is made. */
  predicate Rejects(d: Draft, isNumber: string -> bool, f: Field) {
    match f
    case Sku => Trim(d.sku) == ""
    case Name => Trim(d.name) == ""
    case Price => d.price == "" || !isNumber(d.price)
  }

  /** The error map validation installs: exactly the flagged fields, each
      with its message. */
  function ExpectedErrors(d: Draft, isNumber: string -> bool): map<Field, string> {
    map f | f in {Sku, Name, Price} && Rejects(d, isNumber, f) :: Message(f)
  }

  /** What a valid draft is, stated without trimming: SKU and name each hold a
      non-whitespace character, and the price is a non-empty numeric string. */
  predicate Accepted(d: Draft, isNumber: string -> bool) {
    !Blank(d.sku) && !Blank(d.name) && d.price != "" && isNumber(d.price)
  }

  /** Validation passes exactly for accepted drafts; in particular a price
      such as "-5" passes whenever it is numeric. */
  lemma ValidIffNoErrors(d: Draft, isNumber: string -> bool)
    ensures ExpectedErrors(d, isNumber) == map[] <==> Accepted(d, isNumber)
    ensures forall f :: f in ExpectedErrors(d, isNumber) ==> ExpectedErrors(d, isNumber)[f] != ""
  {
    TrimEmptyIffBlank(d.sku);
    TrimEmptyIffBlank(d.name);
    var e := ExpectedErrors(d, isNumber);
    if !Accepted(d, isNumber) {
      if Blank(d.sku) { assert Sku in e; }
      else if Blank(d.name) { assert Name in e; }
      else { assert Price in e; }
    }
  }

  /** `validateForm`'s construction of `newErrors`, one conditional
      assignment per field. */
  method BuildErrors(d: Draft, isNumber: string -> bool) returns (newErrors: map<Field, string>)
    ensures newErrors == ExpectedErrors(d, isNumber)
  {
    newErrors := map[];
    if Trim(d.sku) == "" {
      newErrors := newErrors[Sku := SkuRequired];
    }
    if Trim(d.name) == "" {
      newErrors := newErrors[Name := NameRequired];
    }
    if d.price == "" || !isNumber(d.price) {
      newErrors := newErrors[Price := PriceRequired];
    }
  }

  /** The change handler's treatment of the error map: a field whose error is
      set (a non-empty string) keeps its key with the empty string; every
      other entry, and the set of keys, stays as it was. */
  function ClearError(errors: map<Field, string>, f: Field): (r: map<Field, string>)
    ensures r.Keys == errors.Keys
    ensures forall g :: g in errors && g != f ==> r[g] == errors[g]
    ensures f in r ==> r[f] == ""
  {
    if f in errors && errors[f] != "" then errors[f := ""] else errors
  }

  // ---------------------------------------------------------------- removal

  /** `s.filter((_, i) => i !== index)`: every position but `index`, in order;
      an index outside the sequence removes nothing. */
  function DropIndex<T>(s: seq<T>, index: int): (r: seq<T>)
    ensures 0 <= index < |s| ==> r == s[..index] + s[index + 1..]
    ensures !(0 <= index < |s|) ==> r == s
  {
    if s == [] then []
    else
      var init := s[..|s| - 1];
      var r := DropIndex(init, index) + (if index == |s| - 1 then [] else [s[|s| - 1]]);
      assert 0 <= index < |s| - 1 ==> init[..index] == s[..index] && init[index + 1..] + [s[|s| - 1]] == s[index + 1..];
      r
  }

  // ---------------------------------------------------------------- payload

  /** One entry of the multipart body: a text value or a file, under a key. */
  datatype Part = Text(key: string, value: string) | Upload(key: string, file: StagedFile)

  function ExistingParts(urls: seq<string>): (r: seq<Part>) {
    seq(|urls|, i requires 0 <= i < |urls| => Text("existingImages", urls[i]))
  }

  function FileParts(files: seq<StagedFile>): (r: seq<Part>) {
    seq(|files|, i requires 0 <= i < |files| => Upload("images", files[i]))
  }

  /** The multipart body of a submission: `sku`, `name`, `price`, then one
      `existingImages` entry per surviving URL, then one `images` entry per
      staged file. */
  function Payload(d: Draft): seq<Part> {
    Head(d) + ExistingParts(d.existingImages) + FileParts(d.images)
  }

  /** The submit handler's `FormData` construction, with its two `forEach`
      loops. */
  method BuildPayload(d: Draft) returns (data: seq<Part>)
    ensures data == Payload(d)
  {
    data := [];
    data := data + [Text("sku", d.sku)];
    data := data + [Text("name", d.name)];
    data := data + [Text("price", d.price)];
    ghost var head := data;
    for i := 0 to |d.existingImages|
      invariant data == head + ExistingParts(d.existingImages[..i])
    {
      assert ExistingParts(d.existingImages[..i + 1]) == ExistingParts(d.existingImages[..i]) + [Text("existingImages", d.existingImages[i])];
      data := data + [Text("existingImages", d.existingImages[i])];
    }
    assert d.existingImages[..|d.existingImages|] == d.existingImages;
    ghost var middle := data;
    for i := 0 to |d.images|
      invariant data == middle + FileParts(d.images[..i])
    {
      assert FileParts(d.images[..i + 1]) == FileParts(d.images[..i]) + [Upload("images", d.images[i])];
      data := data + [Upload("images", d.images[i])];
    }
    assert d.images[..|d.images|] == d.images;
  }

  /** What a receiver reads back for a text key (`FormData.getAll`): the
      values of the text entries with that key, in order. */
  function TextsFor(parts: seq<Part>, key: string): seq<string> {
    if parts == [] then []
    else (if parts[0].Text? && parts[0].key == key then [parts[0].value] else []) + TextsFor(parts[1..], key)
  }

  /** The files of the upload entries with the given key, in order. */
  function FilesFor(parts: seq<Part>, key: string): seq<StagedFile> {
    if parts == [] then []
    else (if parts[0].Upload? && parts[0].key == key then [parts[0].file] else []) + FilesFor(parts[1..], key)
  }

  lemma {:induction false} TextsConcat(a: seq<Part>, b: seq<Part>, key: string)
    ensures TextsFor(a + b, key) == TextsFor(a, key) + TextsFor(b, key)
  {
    if a == [] {
      assert a + b == b;
    } else {
      var c := a + b;
      assert c != [] && c[0] == a[0];
      assert c[1..] == a[1..] + b;
      TextsConcat(a[1..], b, key);
      var h := if a[0].Text? && a[0].key == key then [a[0].value] else [];
      assert TextsFor(c, key) == h + TextsFor(c[1..], key);
      assert TextsFor(a, key) == h + TextsFor(a[1..], key);
    }
  }

  lemma {:induction false} FilesConcat(a: seq<Part>, b: seq<Part>, key: string)
    ensures FilesFor(a + b, key) == FilesFor(a, key) + FilesFor(b, key)
  {
    if a == [] {
      assert a + b == b;
    } else {
      var c := a + b;
      assert c != [] && c[0] == a[0];
      assert c[1..] == a[1..] + b;
      FilesConcat(a[1..], b, key);
      var h := if a[0].Upload? && a[0].key == key then [a[0].file] else [];
      assert FilesFor(c, key) == h + FilesFor(c[1..], key);
      assert FilesFor(a, key) == h + FilesFor(a[1..], key);
    }
  }

  lemma {:induction false} DecodeExisting(urls: seq<string>, key: string)
    ensures TextsFor(ExistingParts(urls), key) == if key == "existingImages" then urls else []
    ensures FilesFor(ExistingParts(urls), key) == []
  {
    if urls != [] {
      assert ExistingParts(urls)[1..] == ExistingParts(urls[1..]);
      DecodeExisting(urls[1..], key);
    }
  }

  lemma {:induction false} DecodeFiles(files: seq<StagedFile>, key: string)
    ensures TextsFor(FileParts(files), key) == []
    ensures FilesFor(FileParts(files), key) == if key == "images" then files else []
  {
    if files != [] {
      assert FileParts(files)[1..] == FileParts(files[1..]);
      DecodeFiles(files[1..], key);
    }
  }

  function Head(d: Draft): seq<Part> {
    [Text("sku", d.sku), Text("name", d.name), Text("price", d.price)]
  }

  lemma DecodeHead(d: Draft, key: string)
    ensures TextsFor(Head(d), key) ==
      (if key == "sku" then [d.sku] else []) + (if key == "name" then [d.name] else []) + (if key == "price" then [d.price] else [])
    ensures FilesFor(Head(d), key) == []
  {
    var h := Head(d);
    var t1, t2, t3: seq<Part> := h[1..], h[2..], h[3..];
    assert t3 == [];
    assert t2 == [Text("price", d.price)] && t2[1..] == t3;
    assert t1 == [Text("name", d.name), Text("price", d.price)] && t1[1..] == t2;
    assert TextsFor(t2, key) == (if key == "price" then [d.price] else []);
    assert TextsFor(t1, key) == (if key == "name" then [d.name] else []) + TextsFor(t2, key);
    assert FilesFor(t2, key) == [];
    assert FilesFor(t1, key) == [];
  }

  lemma DecodePayload(d: Draft, key: string)
    ensures TextsFor(Payload(d), key) == TextsFor(Head(d), key) + TextsFor(ExistingParts(d.existingImages), key) + TextsFor(FileParts(d.images), key)
    ensures FilesFor(Payload(d), key) == FilesFor(Head(d), key) + FilesFor(ExistingParts(d.existingImages), key) + FilesFor(FileParts(d.images), key)
  {
    TextsConcat(Head(d) + ExistingParts(d.existingImages), FileParts(d.images), key);
    FilesConcat(Head(d) + ExistingParts(d.existingImages), FileParts(d.images), key);
    TextsConcat(Head(d), ExistingParts(d.existingImages), key);
    FilesConcat(Head(d), ExistingParts(d.existingImages), key);
  }

  /** What the body holds under one key, from the decoding of each of its
      three sections. */
  lemma DecodeKey(d: Draft, key: string)
    ensures TextsFor(Payload(d), key) ==
      (if key == "sku" then [d.sku] else []) + (if key == "name" then [d.name] else [])
      + (if key == "price" then [d.price] else []) + (if key == "existingImages" then d.existingImages else [])
    ensures FilesFor(Payload(d), key) == if key == "images" then d.images else []
  {
    DecodePayload(d, key);
    DecodeHead(d, key);
    DecodeExisting(d.existingImages, key);
    DecodeFiles(d.images, key);
  }

  /** The body carries the draft back out: one value for each of `sku`,
      `name` and `price`, the surviving URLs in order under `existingImages`,
      the staged files in order under `images`, and nothing else. */
  lemma PayloadDecodes(d: Draft)
    ensures TextsFor(Payload(d), "sku") == [d.sku]
    ensures TextsFor(Payload(d), "name") == [d.name]
    ensures TextsFor(Payload(d), "price") == [d.price]
    ensures TextsFor(Payload(d), "existingImages") == d.existingImages
    ensures FilesFor(Payload(d), "images") == d.images
    ensures FilesFor(Payload(d), "existingImages") == [] && TextsFor(Payload(d), "images") == []
    ensures |Payload(d)| == 3 + |d.existingImages| + |d.images|
  {
    DecodeKey(d, "sku");
    DecodeKey(d, "name");
    DecodeKey(d, "price");
    DecodeKey(d, "existingImages");
    DecodeKey(d, "images");
  }

  /** Loading an entry and submitting it unchanged sends back its text fields
      and exactly its stored image URLs, with no new files. */
  lemma SeededPayload(p: Product)
    ensures TextsFor(Payload(SeedDraft(Some(p))), "sku") == [p.sku]
    ensures TextsFor(Payload(SeedDraft(Some(p))), "name") == [p.name]
    ensures TextsFor(Payload(SeedDraft(Some(p))), "price") == [p.price]
    ensures TextsFor(Payload(SeedDraft(Some(p))), "existingImages") == ImagesOrEmpty(p.images)
    ensures FilesFor(Payload(SeedDraft(Some(p))), "images") == []
  {
    PayloadDecodes(SeedDraft(Some(p)));
  }

  /** Removing a surviving URL by position leaves the body with the other
      URLs in their order and the staged files untouched, and vice versa. */
  lemma RemovalPayload(d: Draft, i: int)
    ensures 0 <= i < |d.existingImages| ==>
      TextsFor(Payload(d.(existingImages := DropIndex(d.existingImages, i))), "existingImages") == d.existingImages[..i] + d.existingImages[i + 1..]
    ensures FilesFor(Payload(d.(existingImages := DropIndex(d.existingImages, i))), "images") == d.images
    ensures 0 <= i < |d.images| ==>
      FilesFor(Payload(d.(images := DropIndex(d.images, i))), "images") == d.images[..i] + d.images[i + 1..]
    ensures TextsFor(Payload(d.(images := DropIndex(d.images, i))), "existingImages") == d.existingImages
  {
    PayloadDecodes(d.(existingImages := DropIndex(d.existingImages, i)));
    PayloadDecodes(d.(images := DropIndex(d.images, i)));
  }

  // ---------------------------------------------------------------- request

  datatype HttpMethod = Post | Put

  datatype Request = Request(verb: HttpMethod, path: string, body: seq<Part>)

  /** An update of the selected entry (PUT to its own path) when one is
      selected, a creation (POST to the collection) otherwise. */
  function SubmitRequest(selected: Option<Product>, body: seq<Part>): (r: Request)
    ensures r.verb == Put <==> selected.Some?
    ensures r.body == body
    ensures selected.Some? ==> r.path == ProductsPath + "/" + selected.value.id
    ensures selected.None? ==> r.path == ProductsPath
  {
    match selected
    case Some(p) => Request(Put, ProductsPath + "/" + p.id, body)
    case None => Request(Post, ProductsPath, body)
  }

  /** The message logged when a submission throws: the body's `message` field
      (None standing for undefined) when the error carries a non-empty body,
      the error's own message otherwise. */
  function SubmitFailureMessage(s: Settled): (m: Option<string>)
    requires s.Rejected?
    ensures s.attached.Some? && s.attached.value.body.Some? ==> m == s.attached.value.body.value.message
    ensures s.attached.None? || s.attached.value.body.None? ==> m == Some(s.message)
  {
    if s.attached.Some? && s.attached.value.body.Some? then s.attached.value.body.value.message
    else Some(s.message)
  }

  /** What the engine reports when the completion callback was not passed. */
  const MissingCallbackMessage := "onSubmitSuccess is not a function"

  /** One mounted editor. `selectedProduct` is the prop it was last rendered
      with; `fileInput` is what the file input element shows. */
  class ProductForm {
    var formData: Draft
    var errors: map<Field, string>
    var fileInput: seq<StagedFile>
    var selectedProduct: Option<Product>

    /** Mounting: the initial empty state, then the selection effect's first
        run. */
    constructor (selected: Option<Product>)
      ensures formData == SeedDraft(selected) && errors == map[]
      ensures fileInput == [] && selectedProduct == selected
    {
      formData := EmptyDraft();
      errors := map[];
      fileInput := [];
      selectedProduct := selected;
      new;
      formData := SeedDraft(selected);
    }

    /** A re-render with a selection prop: the effect runs when the prop
        changed, replacing the draft and leaving the errors and the file
        input as they were. */
    method ReceiveSelection(selected: Option<Product>)
      modifies this
      ensures selectedProduct == selected
      ensures formData == if selected != old(selectedProduct) then SeedDraft(selected) else old(formData)
      ensures errors == old(errors) && fileInput == old(fileInput)
    {
      if selected != selectedProduct {
        selectedProduct := selected;
        formData := SeedDraft(selected);
      }
    }

    method HandleChange(f: Field, value: string)
      modifies this
      ensures formData == WithField(old(formData), f, value)
      ensures errors == ClearError(old(errors), f)
      ensures fileInput == old(fileInput) && selectedProduct == old(selectedProduct)
    {
      formData := WithField(formData, f, value);
      errors := ClearError(errors, f);
    }

    /** The file input's change: the staged list becomes the picked files
        (replacing, not appending). */
    method HandleFileChange(files: seq<StagedFile>)
      modifies this
      ensures formData == old(formData).(images := files)
      ensures fileInput == files
      ensures errors == old(errors) && selectedProduct == old(selectedProduct)
    {
      formData := formData.(images := files);
      fileInput := files;
    }

    method RemoveImage(index: int, isExisting: bool)
      modifies this
      ensures isExisting ==> formData == old(formData).(existingImages := DropIndex(old(formData).existingImages, index))
      ensures !isExisting ==> formData == old(formData).(images := DropIndex(old(formData).images, index))
      ensures errors == old(errors) && fileInput == old(fileInput) && selectedProduct == old(selectedProduct)
    {
      if isExisting {
        formData := formData.(existingImages := DropIndex(formData.existingImages, index));
      } else {
        formData := formData.(images := DropIndex(formData.images, index));
      }
    }

    /** `validateForm`: the error map is replaced by exactly the flagged
        fields, and the answer is whether there are none. */
    method ValidateForm(isNumber: string -> bool) returns (ok: bool)
      modifies this
      ensures errors == ExpectedErrors(formData, isNumber)
      ensures ok <==> Accepted(formData, isNumber)
      ensures formData == old(formData) && fileInput == old(fileInput) && selectedProduct == old(selectedProduct)
    {
      var newErrors := BuildErrors(formData, isNumber);
      errors := newErrors;
      ok := |newErrors| == 0;
      ValidIffNoErrors(formData, isNumber);
    }

    /** The submit handler. An invalid draft stops before any body or request
        is built. A valid one is sent; if the request succeeds the draft and
        the file input are emptied and the completion callback is called (or,
        when none was passed, the call throws and the error is logged); if
        it fails the draft is kept and the failure is only logged. */
    method HandleSubmit(isNumber: string -> bool, reply: ServerReply, hasCallback: bool)
      returns (request: Option<Request>, notified: bool, logged: Option<string>)
      modifies this
      ensures errors == ExpectedErrors(old(formData), isNumber)
      ensures request.Some? <==> Accepted(old(formData), isNumber)
      ensures request.Some? ==> request.value == SubmitRequest(selectedProduct, Payload(old(formData)))
      ensures selectedProduct == old(selectedProduct)
      ensures
        var succeeded := request.Some? && Settle(reply, AnySuccess).Resolved?;
        if succeeded then
          && formData == EmptyDraft() && fileInput == []
          && notified == hasCallback
          && logged == (if hasCallback then None else Some(MissingCallbackMessage))
        else
          && formData == old(formData) && fileInput == old(fileInput)
          && !notified
          && logged == (if request.Some? then SubmitFailureMessage(Settle(reply, AnySuccess)) else None)
    {
      request, notified, logged := None, false, None;
      var ok := ValidateForm(isNumber);
      if !ok {
        return;
      }
      var data := BuildPayload(formData);
      request := Some(SubmitRequest(selectedProduct, data));
      var settled := Settle(reply, AnySuccess);
      if settled.Resolved? {
        formData := EmptyDraft();
        fileInput := [];
        if hasCallback {
          notified := true;
        } else {
          logged := Some(MissingCallbackMessage);
        }
      } else {
        logged := SubmitFailureMessage(settled);
      }
    }
  }
}
