/** The image-variation request: its three enumerations and their wire
    strings, the required image, and the defaults the API applies to the
    optional attributes. */
module ImageVariationRequest {
  import opened Wrappers
  import opened Json

  datatype Model = DallE2 {
    function ToValue(): (s: string)
      ensures |s| > 0
    {
      "dall-e-2"
    }
  }

  datatype ResponseFormat = Url | B64Json {
    function ToValue(): (s: string)
      ensures |s| > 0
    {
      match this
      case Url => "url"
      case B64Json => "b64_json"
    }
  }

  datatype Size = S256 | S512 | S1024 {
    function ToValue(): (s: string)
      ensures |s| > 0
    {
      match this
      case S256 => "256x256"
      case S512 => "512x512"
      case S1024 => "1024x1024"
    }
  }

  /** The only model string accepted. */
  function ParseModel(s: string): (m: Option<Model>)
    ensures m.Some? ==> m.value.ToValue() == s
    ensures m.None? ==> s != DallE2.ToValue()
  {
    if s == "dall-e-2" then Some(DallE2) else None
  }

  function ParseResponseFormat(s: string): (f: Option<ResponseFormat>)
    ensures f.Some? ==> f.value.ToValue() == s
    ensures f.None? ==> forall g: ResponseFormat :: g.ToValue() != s
  {
    match s
    case "url" => Some(Url)
    case "b64_json" => Some(B64Json)
    case _ => None
  }

  function ParseSize(s: string): (z: Option<Size>)
    ensures z.Some? ==> z.value.ToValue() == s
    ensures z.None? ==> forall y: Size :: y.ToValue() != s
  {
    match s
    case "256x256" => Some(S256)
    case "512x512" => Some(S512)
    case "1024x1024" => Some(S1024)
    case _ => None
  }

  lemma ModelRoundTrip(m: Model)
    ensures ParseModel(m.ToValue()) == Some(m)
  {
  }

  lemma ResponseFormatRoundTrip(f: ResponseFormat)
    ensures ParseResponseFormat(f.ToValue()) == Some(f)
  {
  }

  lemma SizeRoundTrip(z: Size)
    ensures ParseSize(z.ToValue()) == Some(z)
  {
  }

  /** Distinct sizes are sent as distinct strings. */
  lemma SizeInjective(y: Size, z: Size)
    ensures y.ToValue() == z.ToValue() ==> y == z
  {
    SizeRoundTrip(y);
    SizeRoundTrip(z);
  }

  lemma ResponseFormatInjective(f: ResponseFormat, g: ResponseFormat)
    ensures f.ToValue() == g.ToValue() ==> f == g
  {
    ResponseFormatRoundTrip(f);
    ResponseFormatRoundTrip(g);
  }

  /** A file-system path, kept as its text. */
  type Path = string

  datatype Request = Request(
    image: Path,
    model: Option<Model>,
    n: Option<Int32>,
    responseFormat: Option<ResponseFormat>,
    size: Option<Size>,
    user: Option<string>)

  /** The generated builder: every attribute starts unset. */
  datatype Builder = Builder(
    image: Option<Path>,
    model: Option<Model>,
    n: Option<Int32>,
    responseFormat: Option<ResponseFormat>,
    size: Option<Size>,
    user: Option<string>)

  const EmptyBuilder := Builder(None, None, None, None, None, None)

  /** Building fails exactly when no image was set; the optional attributes
      are carried over as they are, with no range check on `n`. */
  function Build(b: Builder): (r: Result<Request, DecodeError>)
    ensures r.Failure? <==> b.image.None?
    ensures r.Failure? ==> r.error == MissingRequiredField("image")
    ensures r.Success? ==> r.value.image == b.image.value
    ensures r.Success? ==> r.value.model == b.model && r.value.n == b.n && r.value.responseFormat == b.responseFormat
                           && r.value.size == b.size && r.value.user == b.user
  {
    if b.image.None? then Failure(MissingRequiredField("image"))
    else Success(Request(b.image.value, b.model, b.n, b.responseFormat, b.size, b.user))
  }

  /** The documented range for `n`. */
  predicate ValidN(n: int) {
    1 <= n <= 10
  }

  /** What the documentation asks of a request. */
  predicate Valid(r: Request) {
    r.n.None? || ValidN(r.n.value)
  }

  /** The builder accepts any image count, in range or not. */
  lemma BuildDoesNotCheckN(image: Path, n: Int32)
    ensures Build(EmptyBuilder.(image := Some(image), n := Some(n))).Success?
    ensures !ValidN(n) ==> !Valid(Build(EmptyBuilder.(image := Some(image), n := Some(n))).value)
  {
  }

  /** The request the API acts on, after its documented defaults. */
  datatype Settings = Settings(model: Model, n: int, responseFormat: ResponseFormat, size: Size)

  const DefaultN := 1

  /** Applies the documented defaults: dall-e-2, one image, url, 1024x1024. */
  function Resolve(r: Request): (s: Settings)
    ensures r.model.Some? ==> s.model == r.model.value
    ensures r.n.Some? ==> s.n == r.n.value
    ensures r.responseFormat.Some? ==> s.responseFormat == r.responseFormat.value
    ensures r.size.Some? ==> s.size == r.size.value
    ensures r.n.None? ==> s.n == DefaultN
    ensures r.responseFormat.None? ==> s.responseFormat.ToValue() == "url"
    ensures r.size.None? ==> s.size.ToValue() == "1024x1024"
    ensures s.model.ToValue() == "dall-e-2"
  {
    Settings(
      r.model.GetOr(DallE2),
      if r.n.Some? then r.n.value else DefaultN,
      r.responseFormat.GetOr(Url),
      r.size.GetOr(S1024))
  }

  /** Leaving an attribute out and setting it to its default request the
      same thing. */
  lemma DefaultsAreExplicitValues(r: Request)
    ensures Resolve(r) == Resolve(r.(model := Some(DallE2)))
    ensures r.n.None? ==> Resolve(r) == Resolve(r.(n := Some(1)))
    ensures r.responseFormat.None? ==> Resolve(r) == Resolve(r.(responseFormat := Some(Url)))
    ensures r.size.None? ==> Resolve(r) == Resolve(r.(size := Some(S1024)))
  {
  }

  /** A valid request resolves to an image count in range; the default
      count is itself in range. */
  lemma ResolvedNInRange(r: Request)
    requires Valid(r)
    ensures ValidN(Resolve(r).n)
  {
  }
}
