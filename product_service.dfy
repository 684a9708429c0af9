/** The product service: choosing the image URL (a fresh upload or the one
    already stored) and building the JSON payloads of `POST /menu` and
    `PATCH /menu/:id`. The HTTP calls themselves are not modelled: the reply
    of `POST /upload` is an input. */
module ProductService {
  import opened Wrappers
  import opened Js
  import opened Strings
  import opened Browser

  datatype Status = Available | OutOfStock

  /** The `data` object an upload reply may carry when it is nested twice. */
  datatype NestedUrls = NestedUrls(imageUrl: Option<string>, url: Option<string>)

  /** The (unwrapped) body of the reply to `POST /upload`: the names of all
      its keys, in order, and the five fields the service looks at. */
  datatype UploadReply = UploadReply(
    keys: seq<string>,
    imageUrl: Option<string>,
    url: Option<string>,
    secureUrl: Option<string>,
    data: Option<NestedUrls>)

  /** How the `POST /upload` request ended: with a reply (its unwrapped
      body; None: null), or rejected with the text of the server's error
      reply (None: there was no reply). */
  datatype UploadOutcome = UploadReplied(body: Option<UploadReply>) | UploadRejected(detail: Option<string>)

  /** The reply body of an upload that got one; a rejected upload has none. */
  function ReplyOf(upload: UploadOutcome): Option<UploadReply> {
    if upload.UploadReplied? then upload.body else None
  }

  /** `ProductFormData`: the argument of `createProduct`. */
  datatype ProductFormData = ProductFormData(
    name: string,
    description: Option<string>,
    price: int,
    stock: int,
    categoryId: string,
    status: Option<Status>,
    file: Option<FileRef>,
    imageUrl: Option<string>)

  /** `Partial<ProductFormData>`: the argument of `updateProduct`. */
  datatype ProductPatch = ProductPatch(
    name: Option<string>,
    description: Option<string>,
    price: Option<int>,
    stock: Option<int>,
    categoryId: Option<string>,
    status: Option<Status>,
    file: Option<FileRef>,
    imageUrl: Option<string>)

  /** The keys a product payload can carry. */
  datatype Key = Name | Description | Price | Stock | CategoryId | StatusKey | ImageUrl

  /** A payload value; `Undefined` is a key present with the value `undefined`. */
  datatype Value = Undefined | Text(text: string) | Number(number: int) | StatusValue(status: Status)

  type Payload = map<Key, Value>

  const AllKeys: set<Key> := {Name, Description, Price, Stock, CategoryId, StatusKey, ImageUrl}

  function TextOrUndefined(s: Option<string>): Value {
    if s.Some? then Text(s.value) else Undefined
  }

  function StatusOrUndefined(s: Option<Status>): Value {
    if s.Some? then StatusValue(s.value) else Undefined
  }

  /** `data?.data`, with an absent object read as one without URLs. */
  function Nested(b: UploadReply): NestedUrls {
    b.data.GetOr(NestedUrls(None, None))
  }

  /** The five places a URL may stand in an upload reply, in the order they are tried. */
  function UrlCandidates(reply: Option<UploadReply>): seq<Option<string>> {
    match reply
    case None => [None, None, None, None, None]
    case Some(b) => [b.imageUrl, b.url, b.secureUrl, Nested(b).imageUrl, Nested(b).url]
  }

  const MissingUrlPrefix: string := "Upload successful but image URL is missing. Received keys: "

  /** The error `uploadImage` throws: the reply's keys joined by ", ", or
      "null" for a null reply. */
  function MissingUrlMessage(reply: Option<UploadReply>): (r: string)
    ensures StartsWith(r, MissingUrlPrefix)
    ensures reply.None? ==> r[|MissingUrlPrefix|..] == "null"
    ensures reply.Some? && |reply.value.keys| == 1 ==> r[|MissingUrlPrefix|..] == reply.value.keys[0]
    ensures reply.Some? && |reply.value.keys| >= 1 ==>
      |r| == |MissingUrlPrefix| + TotalLength(reply.value.keys) + 2 * (|reply.value.keys| - 1)
  {
    var listed := if reply.Some? then Join(reply.value.keys, ", ") else "null";
    var r := MissingUrlPrefix + listed;
    assert r[..|MissingUrlPrefix|] == MissingUrlPrefix && r[|MissingUrlPrefix|..] == listed;
    r
  }

  /** The URL `uploadImage` resolves with, or the error it throws, given the
      reply of the upload endpoint (None: the reply body is null). */
  function UploadImage(reply: Option<UploadReply>): (r: Result<string>)
    ensures r.Ok? ==> r.value != "" && Some(r.value) in UrlCandidates(reply)
    ensures r.Err? <==> forall i :: 0 <= i < 5 ==> !Truthy(UrlCandidates(reply)[i])
    ensures r.Err? ==> r.message == MissingUrlMessage(reply)
  {
    match FirstTruthy(UrlCandidates(reply))
    case Some(u) => Ok(u)
    case None => Err(MissingUrlMessage(reply))
  }

  /** The candidates are tried in the order `imageUrl`, `url`, `secure_url`,
      `data.imageUrl`, `data.url`: the first truthy one wins. */
  lemma UploadUrlPriority(b: UploadReply)
    ensures Truthy(b.imageUrl) ==> UploadImage(Some(b)) == Ok(b.imageUrl.value)
    ensures !Truthy(b.imageUrl) && Truthy(b.url) ==> UploadImage(Some(b)) == Ok(b.url.value)
    ensures !Truthy(b.imageUrl) && !Truthy(b.url) && Truthy(b.secureUrl) ==>
      UploadImage(Some(b)) == Ok(b.secureUrl.value)
    ensures !Truthy(b.imageUrl) && !Truthy(b.url) && !Truthy(b.secureUrl) && Truthy(Nested(b).imageUrl) ==>
      UploadImage(Some(b)) == Ok(Nested(b).imageUrl.value)
    ensures
      (!Truthy(b.imageUrl) && !Truthy(b.url) && !Truthy(b.secureUrl) && !Truthy(Nested(b).imageUrl) && Truthy(Nested(b).url))
      ==> UploadImage(Some(b)) == Ok(Nested(b).url.value)
  {
    var c := UrlCandidates(Some(b));
    if Truthy(c[0]) {
      FirstTruthyAt(c, 0);
    } else if Truthy(c[1]) {
      FirstTruthyAt(c, 1);
    } else if Truthy(c[2]) {
      FirstTruthyAt(c, 2);
    } else if Truthy(c[3]) {
      FirstTruthyAt(c, 3);
    } else if Truthy(c[4]) {
      FirstTruthyAt(c, 4);
    }
  }

  /** The image URL a create or update sends: the uploaded one when a file is
      given (failing when the upload reply has none), otherwise the supplied one. */
  function ChosenImageUrl(file: Option<FileRef>, supplied: Option<string>, reply: Option<UploadReply>): (r: Result<Option<string>>)
    ensures file.None? ==> r == Ok(supplied)
    ensures file.Some? && UploadImage(reply).Ok? ==> r == Ok(Some(UploadImage(reply).value))
    ensures file.Some? && UploadImage(reply).Err? ==> r == Err(UploadImage(reply).message)
  {
    if file.Some? then
      match UploadImage(reply)
      case Ok(u) => Ok(Some(u))
      case Err(m) => Err(m)
    else Ok(supplied)
  }

  /** The payload `createProduct` posts: all seven keys, copied from the input,
      with the image URL chosen as above. */
  function CreatePayload(data: ProductFormData, reply: Option<UploadReply>): (r: Result<Payload>)
    ensures r.Err? <==> data.file.Some? && UploadImage(reply).Err?
    ensures r.Err? ==> r.message == MissingUrlMessage(reply)
    ensures r.Ok? ==> r.value.Keys == AllKeys
    ensures r.Ok? ==>
      r.value[Name] == Text(data.name) &&
      r.value[Description] == TextOrUndefined(data.description) &&
      r.value[Price] == Number(data.price) &&
      r.value[Stock] == Number(data.stock) &&
      r.value[CategoryId] == Text(data.categoryId) &&
      r.value[StatusKey] == StatusOrUndefined(data.status)
    ensures r.Ok? && data.file.Some? ==> r.value[ImageUrl] == Text(UploadImage(reply).value)
    ensures r.Ok? && data.file.None? ==> r.value[ImageUrl] == TextOrUndefined(data.imageUrl)
  {
    match ChosenImageUrl(data.file, data.imageUrl, reply)
    case Err(m) => Err(m)
    case Ok(imageUrl) =>
      Ok(map[
        Name := Text(data.name),
        Description := TextOrUndefined(data.description),
        Price := Number(data.price),
        Stock := Number(data.stock),
        CategoryId := Text(data.categoryId),
        StatusKey := StatusOrUndefined(data.status),
        ImageUrl := TextOrUndefined(imageUrl)])
  }

  /** `key` is in `payload` exactly when `present`, and then holds `v`. */
  predicate Rule(payload: Payload, key: Key, present: bool, v: Value) {
    (key in payload <==> present) && (present ==> payload[key] == v)
  }

  /** One conditional assignment `if (present) payload.key = v`: on a payload
      that does not hold `key` yet, the key is set exactly when `present`;
      every other key is left as it was. */
  method PutIf(p: Payload, key: Key, present: bool, v: Value) returns (q: Payload)
    ensures key !in p ==> Rule(q, key, present, v)
    ensures forall k :: k != key ==> (k in q <==> k in p) && (k in p ==> q[k] == p[k])
  {
    q := p;
    if present {
      q := q[key := v];
    }
  }

  /** Step 2 of `updateProduct`, given the image URL step 1 settled on: the
      payload built one key at a time, with name, category, status and image
      URL only when truthy, and description, price and stock whenever defined
      (so "" and 0 are sent). No other key is ever added. */
  method PatchBody(data: ProductPatch, imageUrl: Option<string>) returns (payload: Payload)
    ensures Rule(payload, Name, Truthy(data.name), Text(data.name.GetOr("")))
    ensures Rule(payload, Description, data.description.Some?, Text(data.description.GetOr("")))
    ensures Rule(payload, Price, data.price.Some?, Number(data.price.GetOr(0)))
    ensures Rule(payload, Stock, data.stock.Some?, Number(data.stock.GetOr(0)))
    ensures Rule(payload, CategoryId, Truthy(data.categoryId), Text(data.categoryId.GetOr("")))
    ensures Rule(payload, StatusKey, data.status.Some?, StatusValue(data.status.GetOr(Available)))
    ensures Rule(payload, ImageUrl, Truthy(imageUrl), Text(imageUrl.GetOr("")))
  {
    payload := map[];
    payload := PutIf(payload, Name, Truthy(data.name), Text(data.name.GetOr("")));
    payload := PutIf(payload, Description, data.description.Some?, Text(data.description.GetOr("")));
    payload := PutIf(payload, Price, data.price.Some?, Number(data.price.GetOr(0)));
    payload := PutIf(payload, Stock, data.stock.Some?, Number(data.stock.GetOr(0)));
    payload := PutIf(payload, CategoryId, Truthy(data.categoryId), Text(data.categoryId.GetOr("")));
    payload := PutIf(payload, StatusKey, data.status.Some?, StatusValue(data.status.GetOr(Available)));
    payload := PutIf(payload, ImageUrl, Truthy(imageUrl), Text(imageUrl.GetOr("")));
  }

  /** `updateProduct`: step 1 uploads the file, if one is given, and fails
      when the reply carries no URL; step 2 builds the payload. */
  method UpdatePayload(data: ProductPatch, reply: Option<UploadReply>) returns (r: Result<Payload>)
    ensures r.Err? <==> data.file.Some? && UploadImage(reply).Err?
    ensures r.Err? ==> r.message == MissingUrlMessage(reply)
    ensures r.Ok? ==> Rule(r.value, Name, Truthy(data.name), Text(data.name.GetOr("")))
    ensures r.Ok? ==> Rule(r.value, Description, data.description.Some?, Text(data.description.GetOr("")))
    ensures r.Ok? ==> Rule(r.value, Price, data.price.Some?, Number(data.price.GetOr(0)))
    ensures r.Ok? ==> Rule(r.value, Stock, data.stock.Some?, Number(data.stock.GetOr(0)))
    ensures r.Ok? ==> Rule(r.value, CategoryId, Truthy(data.categoryId), Text(data.categoryId.GetOr("")))
    ensures r.Ok? ==> Rule(r.value, StatusKey, data.status.Some?, StatusValue(data.status.GetOr(Available)))
    ensures r.Ok? && data.file.Some? ==> Rule(r.value, ImageUrl, true, Text(UploadImage(reply).value))
    ensures r.Ok? && data.file.None? ==> Rule(r.value, ImageUrl, Truthy(data.imageUrl), Text(data.imageUrl.GetOr("")))
  {
    var chosen := ChosenImageUrl(data.file, data.imageUrl, reply);
    if chosen.Err? {
      return Err(chosen.message);
    }
    var payload := PatchBody(data, chosen.value);
    r := Ok(payload);
  }
}
