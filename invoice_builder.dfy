/**
 * The pure parts of src/services/invoiceBuilder.js: recognising an image by its
 * leading bytes, choosing its MIME type, telling an HTML page from an image,
 * resolving a relative image URL, and assembling the request body sent to the
 * invoice-rendering service. Decoding bytes as UTF-8 is a parameter; fetching
 * and reading the logo are not part of this model, their result is an input.
 */
module InvoiceBuilder {
  import opened Common
  import opened Invoices
  import InvoiceGenerator

  // ---- image recognition ----

  datatype ImageFormat = PNG | JPEG | GIF | WebP | SVG

  const PngMagic: seq<bv8> := [0x89, 0x50, 0x4E, 0x47]
  const JpegMagic: seq<bv8> := [0xFF, 0xD8, 0xFF]
  const GifMagic: seq<bv8> := [0x47, 0x49, 0x46]
  /** "RIFF": the container header; the WebP tag further in is not looked at. */
  const RiffMagic: seq<bv8> := [0x52, 0x49, 0x46, 0x46]

  /** How many leading bytes are decoded when looking for an SVG tag. */
  const SvgProbeLength := 100

  function Min(a: nat, b: nat): nat {
    if a < b then a else b
  }

  /** `buffer.toString('utf-8', 0, min(100, length)).trim().startsWith('<svg')` */
  predicate LooksLikeSvg(buffer: seq<bv8>, decode: seq<bv8> -> string) {
    StartsWith(Trim(decode(buffer[..Min(SvgProbeLength, |buffer|)])), "<svg")
  }

  /** `detectImageFormat(buffer)`: signatures are tried in order, each after its length guard. */
  function DetectImageFormat(buffer: seq<bv8>, decode: seq<bv8> -> string): Option<ImageFormat> {
    if |buffer| >= 4 && buffer[0] == 0x89 && buffer[1] == 0x50 && buffer[2] == 0x4E && buffer[3] == 0x47 then Some(PNG)
    else if |buffer| >= 3 && buffer[0] == 0xFF && buffer[1] == 0xD8 && buffer[2] == 0xFF then Some(JPEG)
    else if |buffer| >= 3 && buffer[0] == 0x47 && buffer[1] == 0x49 && buffer[2] == 0x46 then Some(GIF)
    else if |buffer| >= 4 && buffer[0] == 0x52 && buffer[1] == 0x49 && buffer[2] == 0x46 && buffer[3] == 0x46 then Some(WebP)
    else if |buffer| > 0 && LooksLikeSvg(buffer, decode) then Some(SVG)
    else None
  }

  /** One of the four byte signatures starts the buffer. */
  predicate HasMagic(buffer: seq<bv8>) {
    PngMagic <= buffer || JpegMagic <= buffer || GifMagic <= buffer || RiffMagic <= buffer
  }

  /**
   * Each binary format is recognised exactly when the buffer begins with its signature
   * (the four signatures start with different bytes, so the order of the tests does not
   * matter); SVG is the text test on what is left, and the decoder is consulted only then.
   */
  lemma DetectBySignature(buffer: seq<bv8>, decode: seq<bv8> -> string, other: seq<bv8> -> string)
    ensures DetectImageFormat(buffer, decode) == Some(PNG) <==> PngMagic <= buffer
    ensures DetectImageFormat(buffer, decode) == Some(JPEG) <==> JpegMagic <= buffer
    ensures DetectImageFormat(buffer, decode) == Some(GIF) <==> GifMagic <= buffer
    ensures DetectImageFormat(buffer, decode) == Some(WebP) <==> RiffMagic <= buffer
    ensures DetectImageFormat(buffer, decode) == Some(SVG) <==>
      !HasMagic(buffer) && buffer != [] && LooksLikeSvg(buffer, decode)
    ensures HasMagic(buffer) ==> DetectImageFormat(buffer, decode) == DetectImageFormat(buffer, other)
  {
    assert PngMagic <= buffer <==> |buffer| >= 4 && buffer[0] == 0x89 && buffer[1] == 0x50 && buffer[2] == 0x4E && buffer[3] == 0x47;
    assert JpegMagic <= buffer <==> |buffer| >= 3 && buffer[0] == 0xFF && buffer[1] == 0xD8 && buffer[2] == 0xFF;
    assert GifMagic <= buffer <==> |buffer| >= 3 && buffer[0] == 0x47 && buffer[1] == 0x49 && buffer[2] == 0x46;
    assert RiffMagic <= buffer <==> |buffer| >= 4 && buffer[0] == 0x52 && buffer[1] == 0x49 && buffer[2] == 0x46 && buffer[3] == 0x46;
  }

  /** The MIME type `detectMimeType` gives each recognised format. */
  function MimeOfFormat(f: ImageFormat): string {
    match f
    case PNG => "image/png"
    case JPEG => "image/jpeg"
    case GIF => "image/gif"
    case WebP => "image/webp"
    case SVG => "image/svg+xml"
  }

  // ---- path.extname ----

  /** The path without its trailing '/'s. */
  function StripTrailingSlashes(p: string): (r: string)
    ensures r <= p
    ensures r == [] || r[|r| - 1] != '/'
  {
    if p != [] && p[|p| - 1] == '/' then StripTrailingSlashes(p[..|p| - 1]) else p
  }

  /** What follows the last '/'. */
  function LastPart(p: string): (r: string)
    ensures '/' !in r && |r| <= |p| && r == p[|p| - |r|..]
  {
    if p == [] || p[|p| - 1] == '/' then []
    else LastPart(p[..|p| - 1]) + [p[|p| - 1]]
  }

  /** Index of the last '.', if any. */
  function LastDot(s: string): (r: Option<nat>)
    ensures r.None? <==> '.' !in s
    ensures r.Some? ==> r.value < |s| && s[r.value] == '.' && '.' !in s[r.value + 1..]
  {
    if s == [] then None
    else if s[|s| - 1] == '.' then Some(|s| - 1)
    else
      var r := LastDot(s[..|s| - 1]);
      assert r.Some? ==> s[r.value + 1..] == s[..|s| - 1][r.value + 1..] + [s[|s| - 1]];
      assert r.None? ==> s == s[..|s| - 1] + [s[|s| - 1]];
      r
  }

  /**
   * POSIX `path.extname(p)`: from the last '.' of the last segment to its end; empty when
   * that segment has no '.', starts with its only leading '.', or is "..".
   */
  function Extname(p: string): (r: string)
    ensures r == [] || (r[0] == '.' && '.' !in r[1..] && '/' !in r)
  {
    SegmentExt(LastPart(StripTrailingSlashes(p)))
  }

  /** The extension of one path segment `b`, which holds no '/'. */
  function SegmentExt(b: string): (r: string)
    requires '/' !in b
    ensures r == [] || (r[0] == '.' && '.' !in r[1..] && '/' !in r)
  {
    match LastDot(b)
    case None => []
    case Some(d) =>
      if d == 0 || b == ".." then []
      else
        assert b[d..][1..] == b[d + 1..];
        b[d..]
  }

  lemma {:induction false} LastPartAppend(p: string, x: string)
    requires '/' !in x
    ensures LastPart(p + x) == LastPart(p) + x
    decreases |x|
  {
    if x != [] {
      var y := x[..|x| - 1];
      assert (p + x)[..|p + x| - 1] == p + y;
      assert y + [x[|x| - 1]] == x;
      LastPartAppend(p, y);
    } else {
      assert p + x == p;
    }
  }

  lemma {:induction false} LastDotAfter(b: string, e: string)
    requires '.' !in e
    ensures LastDot(b + "." + e) == Some(|b|)
    decreases |e|
  {
    var s := b + "." + e;
    if e == [] {
      assert s[|s| - 1] == '.';
    } else {
      var f := e[..|e| - 1];
      assert s[..|s| - 1] == b + "." + f;
      assert s[|s| - 1] == e[|e| - 1];
      LastDotAfter(b, f);
    }
  }

  /**
   * A name ending in "." and a dot-free extension has that extension, whatever comes
   * before, as long as the name's last segment has something before the dot.
   */
  lemma ExtnameOfSuffix(p: string, e: string)
    requires p != [] && p[|p| - 1] != '/'
    requires e != [] && '.' !in e && '/' !in e
    ensures Extname(p + "." + e) == "." + e
  {
    var lp := LastSegmentOfSuffix(p, e);
    SegmentExtOfSuffix(lp, e);
  }

  /** A segment made of a non-empty stem, a dot and a dot-free extension has that extension. */
  lemma SegmentExtOfSuffix(lp: string, e: string)
    requires lp != [] && '/' !in lp
    requires e != [] && '.' !in e && '/' !in e
    ensures '/' !in lp + "." + e && SegmentExt(lp + "." + e) == "." + e
  {
    var b := lp + "." + e;
    LastDotAfter(lp, e);
    assert |b| != |".."|;
    assert b[|lp|..] == "." + e;
  }

  /** The last segment of such a name is a non-empty stem, the dot and the extension. */
  lemma LastSegmentOfSuffix(p: string, e: string) returns (lp: string)
    requires p != [] && p[|p| - 1] != '/'
    requires e != [] && '/' !in e
    ensures lp != [] && '/' !in lp && LastPart(StripTrailingSlashes(p + "." + e)) == lp + "." + e
  {
    var s := p + "." + e;
    assert s[|s| - 1] == e[|e| - 1];
    assert StripTrailingSlashes(s) == s;
    assert s == p + ("." + e);
    LastPartAppend(p, "." + e);
    lp := LastPart(p);
    assert lp != [] by {
      assert LastPart(p) == LastPart(p[..|p| - 1]) + [p[|p| - 1]];
    }
    assert lp + ("." + e) == lp + "." + e;
  }

  /** `getMimeTypeFromExtension(filePath)`: the lower-cased extension picks the type; anything unknown is PNG. */
  function MimeFromExtension(filePath: string): string {
    MimeOfExtension(ToLowerAscii(Extname(filePath)))
  }

  /** The extension table, on a lower-cased extension. */
  function MimeOfExtension(ext: string): string {
    if ext == ".jpg" || ext == ".jpeg" then "image/jpeg"
    else if ext == ".gif" then "image/gif"
    else if ext == ".svg" then "image/svg+xml"
    else if ext == ".webp" then "image/webp"
    else "image/png"
  }

  /** The extension each format is saved under. */
  function ExtensionOf(f: ImageFormat): string {
    match f
    case PNG => "png"
    case JPEG => "jpg"
    case GIF => "gif"
    case WebP => "webp"
    case SVG => "svg"
  }

  /** The extension table and the signature table agree: a file named for a format gets that format's type. */
  lemma ExtensionTableAgrees(name: string, f: ImageFormat)
    requires name != [] && name[|name| - 1] != '/'
    ensures MimeFromExtension(name + "." + ExtensionOf(f)) == MimeOfFormat(f)
  {
    var e := ExtensionOf(f);
    ExtensionChars(f);
    ExtnameOfSuffix(name, e);
    LowerCaseKept("." + e);
    ExtensionTable(f);
  }

  lemma ExtensionChars(f: ImageFormat)
    ensures var e := ExtensionOf(f);
      && e != [] && '.' !in e && '/' !in e
      && forall i :: 0 <= i < |"." + e| ==> !('A' <= ("." + e)[i] <= 'Z')
  {
    match f {
      case PNG => assert "." + ExtensionOf(f) == ".png";
      case JPEG => assert "." + ExtensionOf(f) == ".jpg";
      case GIF => assert "." + ExtensionOf(f) == ".gif";
      case WebP => assert "." + ExtensionOf(f) == ".webp";
      case SVG => assert "." + ExtensionOf(f) == ".svg";
    }
  }

  lemma ExtensionTable(f: ImageFormat)
    ensures MimeOfExtension("." + ExtensionOf(f)) == MimeOfFormat(f)
  {
    var ext := "." + ExtensionOf(f);
    match f {
      case PNG =>
        assert ext == ".png";
        assert ext[1] != ".jpg"[1] && ext[1] != ".gif"[1] && ext[1] != ".svg"[1];
      case JPEG =>
        assert ext == ".jpg";
      case GIF =>
        assert ext == ".gif";
        assert ext[1] != ".jpg"[1];
      case WebP =>
        assert ext == ".webp";
        assert ext[1] != ".jpeg"[1];
      case SVG =>
        assert ext == ".svg";
        assert ext[1] != ".jpg"[1] && ext[1] != ".gif"[1];
    }
  }

  /** Lower-casing leaves a string without upper-case ASCII letters alone. */
  lemma LowerCaseKept(s: string)
    requires forall i :: 0 <= i < |s| ==> !('A' <= s[i] <= 'Z')
    ensures ToLowerAscii(s) == s
  {
  }

  /** Lower-casing a dotted extension lower-cases what follows the dot. */
  lemma LowerDotted(e: string)
    ensures ToLowerAscii("." + e) == "." + ToLowerAscii(e)
  {
    assert ("." + e)[1..] == e;
  }

  /** A lower-cased extension is still a dot-free extension, and lower-casing it again changes nothing. */
  lemma LowerExtension(e: string)
    requires e != [] && '.' !in e && '/' !in e
    ensures var l := ToLowerAscii(e);
      && l != [] && '.' !in l && '/' !in l
      && ToLowerAscii("." + e) == "." + l
      && ToLowerAscii("." + l) == "." + l
  {
    var l := ToLowerAscii(e);
    forall i | 0 <= i < |l|
      ensures l[i] != '.' && l[i] != '/' && !('A' <= l[i] <= 'Z')
    {
      assert e[i] != '.' && e[i] != '/';
    }
    LowerDotted(e);
    forall i | 0 <= i < |"." + l|
      ensures !('A' <= ("." + l)[i] <= 'Z')
    {
      if i > 0 {
        assert ("." + l)[i] == l[i - 1];
      }
    }
    LowerCaseKept("." + l);
  }

  /** Upper-case extensions are recognised like lower-case ones. */
  lemma ExtensionCaseIgnored(name: string, e: string)
    requires name != [] && name[|name| - 1] != '/'
    requires e != [] && '.' !in e && '/' !in e
    ensures MimeFromExtension(name + "." + e) == MimeFromExtension(name + "." + ToLowerAscii(e))
  {
    LowerExtension(e);
    ExtnameOfSuffix(name, e);
    ExtnameOfSuffix(name, ToLowerAscii(e));
  }

  /** `detectMimeType(buffer, contentType, url)`: an image content-type wins, then the bytes, then the URL's extension. */
  function DetectMimeType(buffer: seq<bv8>, contentType: Option<string>, url: string, decode: seq<bv8> -> string): string {
    if contentType.Some? && StartsWith(contentType.value, "image/") then contentType.value
    else match DetectImageFormat(buffer, decode)
      case Some(f) => MimeOfFormat(f)
      case None => MimeFromExtension(url)
  }

  /** `isValidImage(buffer, contentType)` */
  predicate IsValidImage(buffer: seq<bv8>, contentType: string, decode: seq<bv8> -> string) {
    DetectImageFormat(buffer, decode).Some? || StartsWith(contentType, "image/")
  }

  /**
   * Every answer is an image type. For an image that passes `isValidImage` the answer
   * never falls back to the URL: it is the content-type when that names an image, else
   * the type of the recognised bytes.
   */
  lemma MimeTypeFacts(buffer: seq<bv8>, contentType: string, url: string, url2: string, decode: seq<bv8> -> string)
    ensures StartsWith(DetectMimeType(buffer, Some(contentType), url, decode), "image/")
    ensures StartsWith(DetectMimeType(buffer, None, url, decode), "image/")
    ensures IsValidImage(buffer, contentType, decode) ==>
      DetectMimeType(buffer, Some(contentType), url, decode) == DetectMimeType(buffer, Some(contentType), url2, decode)
    ensures !StartsWith(contentType, "image/") && DetectImageFormat(buffer, decode).Some? ==>
      DetectMimeType(buffer, Some(contentType), url, decode) == MimeOfFormat(DetectImageFormat(buffer, decode).value)
    ensures !IsValidImage(buffer, contentType, decode) ==>
      DetectMimeType(buffer, Some(contentType), url, decode) == MimeFromExtension(url)
  {
    MimeTypesAreImages();
  }

  /** Both tables only name image types. */
  lemma MimeTypesAreImages()
    ensures forall f :: StartsWith(MimeOfFormat(f), "image/")
    ensures forall p :: StartsWith(MimeFromExtension(p), "image/")
  {
    forall p ensures StartsWith(MimeFromExtension(p), "image/") {
      var ext := ToLowerAscii(Extname(p));
      assert StartsWith(MimeOfExtension(ext), "image/") by {
        ImageTypes();
      }
    }
  }

  lemma ImageTypes()
    ensures forall ext :: StartsWith(MimeOfExtension(ext), "image/")
    ensures forall f :: StartsWith(MimeOfFormat(f), "image/")
  {
    assert "image/png"[..6] == "image/";
    assert "image/jpeg"[..6] == "image/";
    assert "image/gif"[..6] == "image/";
    assert "image/webp"[..6] == "image/";
    assert "image/svg+xml"[..6] == "image/";
  }

  // ---- HTML responses and relative URLs ----

  /** `isHtmlResponse(buffer)`, given the buffer decoded as UTF-8. */
  predicate IsHtmlResponse(content: string) {
    var t := Trim(content);
    StartsWith(t, "<!DOCTYPE") || StartsWith(t, "<html") || StartsWith(t, "<?xml")
  }

  lemma {:induction false} TrimStartSkipsSpace(ws: string, t: string)
    requires forall i :: 0 <= i < |ws| ==> IsSpace(ws[i])
    ensures TrimStart(ws + t) == TrimStart(t)
    decreases |ws|
  {
    if ws != [] {
      assert (ws + t)[1..] == ws[1..] + t;
      TrimStartSkipsSpace(ws[1..], t);
    } else {
      assert ws + t == t;
    }
  }

  /** White space before a page does not change the verdict. */
  lemma HtmlIgnoresLeadingSpace(ws: string, content: string)
    requires forall i :: 0 <= i < |ws| ==> IsSpace(ws[i])
    ensures IsHtmlResponse(ws + content) <==> IsHtmlResponse(content)
  {
    TrimStartSkipsSpace(ws, content);
  }

  /** `normalizeImageUrl(imageUrl, baseUrl)`, with `new URL(baseUrl).origin` given as `origin`. */
  function NormalizeImageUrl(imageUrl: string, origin: string): string {
    if StartsWith(imageUrl, "/") then origin + imageUrl
    else if !StartsWith(imageUrl, "http") then origin + "/" + imageUrl
    else imageUrl
  }

  /**
   * A root-relative URL is put under the origin, any other relative one under the
   * origin's root, and an absolute one is kept. With an http(s) origin the result is
   * absolute, so normalising twice changes nothing.
   */
  lemma NormalizeImageUrlFacts(imageUrl: string, origin: string)
    requires StartsWith(origin, "http")
    ensures var r := NormalizeImageUrl(imageUrl, origin);
      && StartsWith(r, "http")
      && (StartsWith(imageUrl, "http") ==> r == imageUrl)
      && (!StartsWith(imageUrl, "http") ==> r == origin + (if StartsWith(imageUrl, "/") then [] else "/") + imageUrl)
      && NormalizeImageUrl(r, origin) == r
  {
    var r := NormalizeImageUrl(imageUrl, origin);
    if StartsWith(imageUrl, "/") {
      assert r[..4] == origin[..4];
      assert origin + [] + imageUrl == origin + imageUrl;
    } else if !StartsWith(imageUrl, "http") {
      assert r[..4] == origin[..4];
    }
    assert r[0] == 'h';
  }

  // ---- the request body ----

  /** `data.fields` as given; a flag is on unless it is exactly `false`. */
  datatype FieldsInput = FieldsInput(tax: string, discounts: Option<bool>, shipping: Option<bool>)

  /** `data.financial` as given; an absent amount is 0. */
  datatype FinancialInput = FinancialInput(tax: Option<real>, shipping: Option<real>, discounts: Option<real>, amountPaid: Option<real>)

  /** The structured invoice `buildInvoiceData` receives. An empty string stands for an absent text field. */
  datatype BuildInput = BuildInput(
    company: Company, customer: Customer, invoice: InvoiceInfo, items: seq<Item>,
    fields: Option<FieldsInput>, financial: Option<FinancialInput>,
    customFields: Option<seq<CustomField>>, accountDetails: Option<AccountDetails>,
    shipTo: Option<Customer>, notes: string, terms: string)

  datatype PayloadItem = PayloadItem(name: string, description: Option<string>, quantity: real, unitCost: real)

  /** The body sent to the rendering service; `None` is a `null` or absent key. */
  datatype Payload = Payload(
    from: string, to: string, logo: Option<string>,
    number: string, date: string, currency: string,
    paymentTerms: Option<string>, dueDate: Option<string>,
    items: seq<PayloadItem>, fields: FieldsConfig,
    tax: real, shipping: real, discounts: real, amountPaid: real,
    notes: Option<string>, terms: Option<string>,
    customFields: Option<seq<CustomField>>, shipTo: Option<string>)

  /** `s || null` */
  function OrNull(s: string): (r: Option<string>)
    ensures r.None? <==> s == []
  {
    if s == [] then None else Some(s)
  }

  function PayloadItemOf(it: Item): PayloadItem {
    PayloadItem(it.name, OrNull(it.description), it.quantity, it.unitCost)
  }

  function PayloadItems(items: seq<Item>): (r: seq<PayloadItem>)
    ensures |r| == |items| && forall i :: 0 <= i < |items| ==> r[i] == PayloadItemOf(items[i])
  {
    if items == [] then [] else [PayloadItemOf(items[0])] + PayloadItems(items[1..])
  }

  function FieldsOf(f: Option<FieldsInput>): FieldsConfig {
    match f
    case None => FieldsConfig("%", true, true)
    case Some(g) =>
      FieldsConfig(if g.tax != [] then g.tax else "%", g.discounts != Some(false), g.shipping != Some(false))
  }

  /** `x || 0` on an optional amount. */
  function AmountOr0(x: Option<real>): real {
    if x.Some? then x.value else 0.0
  }

  /** A row the account details may produce, and whether it is pushed. */
  datatype Candidate = Candidate(shown: bool, row: CustomField)

  /** The row for a detail: pushed when its trimmed value is not blank, which is shown with two trailing spaces. */
  function AccountRow(title: string, value: string, indented: bool): Candidate {
    var v := Trim(value);
    Candidate(v != [], CustomField(title, if indented then "  " + v + "  " else v + "  "))
  }

  /** The six rows `buildInvoiceData` considers, in the order it pushes them; `branchName` is not among them. */
  function AccountCandidates(acc: AccountDetails): (cs: seq<Candidate>)
    ensures |cs| == 6
  {
    [ AccountRow("Bank Name", acc.bankName, false),
      AccountRow("Account Holder", acc.accountHolderName, false),
      AccountRow("Account Number", acc.accountNumber, false),
      AccountRow("IBAN", acc.iban, false),
      AccountRow("SWIFT/BIC", acc.swiftBic, false),
      AccountRow("Branch Address", acc.branchAddress, true) ]
  }

  /** The rows of the candidates from `k` on that are pushed, in order. */
  function Shown(cs: seq<Candidate>, k: nat): seq<CustomField>
    requires k <= |cs|
    decreases |cs| - k
  {
    if k == |cs| then []
    else (if cs[k].shown then [cs[k].row] else []) + Shown(cs, k + 1)
  }

  /** The positions, from `k` on, of the candidates that are pushed. */
  function ShownAt(cs: seq<Candidate>, k: nat): (ks: seq<nat>)
    requires k <= |cs|
    ensures forall i :: 0 <= i < |ks| ==> k <= ks[i] < |cs|
    decreases |cs| - k
  {
    if k == |cs| then []
    else if cs[k].shown then [k] + ShownAt(cs, k + 1)
    else ShownAt(cs, k + 1)
  }

  /** The pushed rows are the rows of the shown candidates at `ShownAt(cs, k)`, in that order. */
  lemma {:induction false} ShownRows(cs: seq<Candidate>, k: nat)
    requires k <= |cs|
    ensures |Shown(cs, k)| == |ShownAt(cs, k)|
    ensures forall i :: 0 <= i < |ShownAt(cs, k)| ==> Shown(cs, k)[i] == cs[ShownAt(cs, k)[i]].row
    decreases |cs| - k
  {
    if k < |cs| {
      ShownRows(cs, k + 1);
      var r, ks := Shown(cs, k), ShownAt(cs, k);
      var r', ks' := Shown(cs, k + 1), ShownAt(cs, k + 1);
      if cs[k].shown {
        assert r == [cs[k].row] + r' && ks == [k] + ks';
        forall i | 0 < i < |ks|
          ensures r[i] == cs[ks[i]].row
        {
          assert r[i] == r'[i - 1] && ks[i] == ks'[i - 1];
        }
      } else {
        assert r == r' by {
          assert [] + r' == r';
        }
      }
    }
  }

  /** The positions of the shown candidates ascend. */
  lemma {:induction false} ShownAtAscending(cs: seq<Candidate>, k: nat)
    requires k <= |cs|
    ensures forall i, j :: 0 <= i < j < |ShownAt(cs, k)| ==> ShownAt(cs, k)[i] < ShownAt(cs, k)[j]
    decreases |cs| - k
  {
    if k < |cs| {
      ShownAtAscending(cs, k + 1);
      var ks, ks' := ShownAt(cs, k), ShownAt(cs, k + 1);
      if cs[k].shown {
        assert ks == [k] + ks';
        forall i, j | 0 <= i < j < |ks|
          ensures ks[i] < ks[j]
        {
          assert ks[j] == ks'[j - 1];
          if i > 0 {
            assert ks[i] == ks'[i - 1];
          }
        }
      }
    }
  }

  /** A position from `k` on is listed exactly when its candidate is shown. */
  lemma {:induction false} ShownAtExactly(cs: seq<Candidate>, k: nat)
    requires k <= |cs|
    ensures forall m :: k <= m < |cs| ==> (m in ShownAt(cs, k) <==> cs[m].shown)
    decreases |cs| - k
  {
    if k < |cs| {
      ShownAtExactly(cs, k + 1);
      var ks, ks' := ShownAt(cs, k), ShownAt(cs, k + 1);
      assert forall m :: m in ks' ==> k < m;
      if cs[k].shown {
        assert ks == [k] + ks';
      }
    }
  }

  /** The rows pushed for `data.accountDetails`. */
  function AccountRows(acc: AccountDetails): seq<CustomField> {
    Shown(AccountCandidates(acc), 0)
  }

  /**
   * Exactly the details with a non-blank value get a row, in the fixed order Bank Name,
   * Account Holder, Account Number, IBAN, SWIFT/BIC, Branch Address, each showing the
   * trimmed value; the branch name never appears.
   */
  lemma AccountRowsFacts(acc: AccountDetails, branchName: string)
    ensures var cs := AccountCandidates(acc);
      var r := AccountRows(acc);
      var ks := ShownAt(cs, 0);
      && |r| == |ks| <= 6
      && (forall i :: 0 <= i < |ks| ==> r[i] == cs[ks[i]].row)
      && (forall i, j :: 0 <= i < j < |ks| ==> ks[i] < ks[j])
      && (forall m :: 0 <= m < 6 ==> (m in ks <==> cs[m].shown))
      && (cs[0].shown <==> Trim(acc.bankName) != []) && cs[0].row == CustomField("Bank Name", Trim(acc.bankName) + "  ")
      && (cs[5].shown <==> Trim(acc.branchAddress) != [])
      && cs[5].row == CustomField("Branch Address", "  " + Trim(acc.branchAddress) + "  ")
    ensures AccountRows(acc.(branchName := branchName)) == AccountRows(acc)
  {
    var cs := AccountCandidates(acc);
    ShownRows(cs, 0);
    ShownAtAscending(cs, 0);
    ShownAtExactly(cs, 0);
    var ks := ShownAt(cs, 0);
    assert |ks| <= 6 by {
      ShownAtLength(cs, 0);
    }
    assert AccountCandidates(acc.(branchName := branchName)) == cs;
  }

  /** The row a candidate contributes: itself when shown, nothing otherwise. */
  function Piece(c: Candidate): seq<CustomField> {
    if c.shown then [c.row] else []
  }

  /** The rows pushed for the first `k` candidates, in push order. */
  function Prefix(cs: seq<Candidate>, k: nat): seq<CustomField>
    requires k <= |cs|
  {
    if k == 0 then [] else Prefix(cs, k - 1) + Piece(cs[k - 1])
  }

  /** Pushing the first `k` candidates and then the rest yields all shown rows. */
  lemma {:induction false} PrefixShown(cs: seq<Candidate>, k: nat)
    requires k <= |cs|
    ensures Prefix(cs, k) + Shown(cs, k) == Shown(cs, 0)
  {
    if k > 0 {
      PrefixShown(cs, k - 1);
      var head := Piece(cs[k - 1]);
      assert Shown(cs, k - 1) == head + Shown(cs, k);
      AppendedStep(Prefix(cs, k - 1), head, Shown(cs, k), Shown(cs, 0), Prefix(cs, k));
    }
  }

  /** Moving a head from the unprocessed tail onto the accumulated prefix keeps the whole. */
  lemma AppendedStep<T>(before: seq<T>, head: seq<T>, tail: seq<T>, whole: seq<T>, after: seq<T>)
    requires before + (head + tail) == whole
    requires after == before + head
    ensures after + tail == whole
  {
    assert (before + head) + tail == before + (head + tail);
  }

  lemma {:induction false} ShownAtLength(cs: seq<Candidate>, k: nat)
    requires k <= |cs|
    ensures |ShownAt(cs, k)| <= |cs| - k
    decreases |cs| - k
  {
    if k < |cs| {
      ShownAtLength(cs, k + 1);
    }
  }

  /** Whether `buildInvoiceData` creates the `custom_fields` list at all. */
  predicate HasCustomFields(data: BuildInput) {
    data.accountDetails.Some? || (data.customFields.Some? && data.customFields.value != []) || data.invoice.purchaseOrder != []
  }

  /** The extra fields given by the caller, in their order. */
  function ExtraFields(data: BuildInput): seq<CustomField> {
    if data.customFields.Some? then data.customFields.value else []
  }

  /** The `Purchase Order` row, when one is set. */
  function PurchaseOrderRow(data: BuildInput): seq<CustomField> {
    if data.invoice.purchaseOrder != [] then [CustomField("Purchase Order", data.invoice.purchaseOrder)] else []
  }

  /** The `custom_fields` key given the account rows: those, then the caller's fields, then the purchase order. */
  function CustomFieldsWith(data: BuildInput, accountRows: seq<CustomField>): Option<seq<CustomField>> {
    if !HasCustomFields(data) then None else Some(accountRows + ExtraFields(data) + PurchaseOrderRow(data))
  }

  /** The `custom_fields` key of `buildInvoiceData(data)`. */
  function CustomFieldsOf(data: BuildInput): Option<seq<CustomField>> {
    if data.accountDetails.Some? then CustomFieldsWith(data, AccountRows(data.accountDetails.value))
    else CustomFieldsWith(data, [])
  }

  /**
   * The list is present exactly when there is something to put in it; the caller's
   * fields keep their order and follow the account rows, and the purchase order, when
   * set, is the last row.
   */
  lemma CustomFieldsLayout(data: BuildInput, accountRows: seq<CustomField>)
    ensures CustomFieldsWith(data, accountRows).None? <==>
      data.accountDetails.None? && ExtraFields(data) == [] && data.invoice.purchaseOrder == []
    ensures CustomFieldsWith(data, accountRows).Some? ==>
      var r := CustomFieldsWith(data, accountRows).value;
      var n := |accountRows|;
      && n + |ExtraFields(data)| <= |r|
      && r[..n] == accountRows
      && r[n..n + |ExtraFields(data)|] == ExtraFields(data)
      && (data.invoice.purchaseOrder != [] ==> r[|r| - 1] == CustomField("Purchase Order", data.invoice.purchaseOrder))
      && (data.invoice.purchaseOrder == [] ==> |r| == n + |ExtraFields(data)|)
  {
    if HasCustomFields(data) {
      MiddleOf(accountRows, ExtraFields(data), PurchaseOrderRow(data));
    }
  }

  /** The middle part of a three-way concatenation is found at its offset. */
  lemma MiddleOf<T>(a: seq<T>, b: seq<T>, c: seq<T>)
    ensures |a + b + c| == |a| + |b| + |c|
    ensures (a + b + c)[..|a|] == a
    ensures (a + b + c)[|a|..|a| + |b|] == b
    ensures c != [] ==> (a + b + c)[|a + b + c| - 1] == c[|c| - 1]
  {
    assert (a + b + c)[..|a|] == a;
    assert (a + b + c)[|a|..|a| + |b|] == b;
  }

  /** What `buildInvoiceData(data)` returns once the logo has been fetched. */
  function PayloadOf(data: BuildInput, logo: Option<string>): Payload {
    Payload(
      Join(InvoiceGenerator.CompanyLines(data.company), "\n"),
      Join(InvoiceGenerator.CustomerLines(data.customer), "\n"),
      if logo.Some? && logo.value != [] then logo else None,
      data.invoice.number, data.invoice.date,
      if data.invoice.currency != [] then data.invoice.currency else "USD",
      OrNull(data.invoice.paymentTerms), OrNull(data.invoice.dueDate),
      PayloadItems(data.items),
      FieldsOf(data.fields),
      if data.financial.Some? then AmountOr0(data.financial.value.tax) else 0.0,
      if data.financial.Some? then AmountOr0(data.financial.value.shipping) else 0.0,
      if data.financial.Some? then AmountOr0(data.financial.value.discounts) else 0.0,
      if data.financial.Some? then AmountOr0(data.financial.value.amountPaid) else 0.0,
      OrNull(data.notes), OrNull(data.terms),
      CustomFieldsOf(data),
      if data.shipTo.Some? then Some(Join(InvoiceGenerator.CustomerLines(data.shipTo.value), "\n")) else None)
  }

  /**
   * The defaults: US dollars, percentage tax, discounts and shipping on unless switched
   * off, absent amounts 0, blank optional texts sent as null; the items keep their order
   * and values.
   */
  lemma PayloadDefaults(data: BuildInput, logo: Option<string>)
    ensures var p := PayloadOf(data, logo);
      && (data.invoice.currency == [] ==> p.currency == "USD")
      && p.currency != []
      && p.fields.tax != []
      && (data.fields.None? ==> p.fields == FieldsConfig("%", true, true))
      && (p.fields.discounts <==> data.fields.None? || data.fields.value.discounts != Some(false))
      && (p.fields.shipping <==> data.fields.None? || data.fields.value.shipping != Some(false))
      && (data.financial.None? ==> p.tax == 0.0 && p.shipping == 0.0 && p.discounts == 0.0 && p.amountPaid == 0.0)
      && (p.notes.None? <==> data.notes == [])
      && (p.logo.Some? <==> logo.Some? && logo.value != [])
      && (p.shipTo.Some? <==> data.shipTo.Some?)
      && |p.items| == |data.items|
      && (forall i :: 0 <= i < |p.items| ==>
            p.items[i].name == data.items[i].name && p.items[i].quantity == data.items[i].quantity
            && p.items[i].unitCost == data.items[i].unitCost)
  {
  }

  /**
   * The six pushes in their fixed order give the account rows: the pushed list, built
   * by appending each candidate's piece to an empty list, is `AccountRows(acc)`.
   */
  lemma AccountRowsPushed(acc: AccountDetails)
    ensures AccountRows(acc) ==
      [] + Piece(AccountRow("Bank Name", acc.bankName, false))
         + Piece(AccountRow("Account Holder", acc.accountHolderName, false))
         + Piece(AccountRow("Account Number", acc.accountNumber, false))
         + Piece(AccountRow("IBAN", acc.iban, false))
         + Piece(AccountRow("SWIFT/BIC", acc.swiftBic, false))
         + Piece(AccountRow("Branch Address", acc.branchAddress, true))
  {
    var cs := AccountCandidates(acc);
    PrefixShown(cs, 6);
    assert Prefix(cs, 6) + [] == Prefix(cs, 6);
    assert Prefix(cs, 1) == [] + Piece(cs[0]);
    assert Prefix(cs, 2) == Prefix(cs, 1) + Piece(cs[1]);
    assert Prefix(cs, 3) == Prefix(cs, 2) + Piece(cs[2]);
    assert Prefix(cs, 4) == Prefix(cs, 3) + Piece(cs[3]);
    assert Prefix(cs, 5) == Prefix(cs, 4) + Piece(cs[4]);
  }

  /** One guarded push: the detail's row is appended when its trimmed value is not blank. */
  method PushRow(rows: seq<CustomField>, title: string, value: string, indented: bool)
    returns (pushed: seq<CustomField>)
    ensures pushed == rows + Piece(AccountRow(title, value, indented))
  {
    var v := Trim(value);
    pushed := rows;
    if v != [] {
      pushed := rows + [CustomField(title, if indented then "  " + v + "  " else v + "  ")];
    }
  }

  /** The six guarded pushes for `data.accountDetails`, in their fixed order. */
  method PushAccountRows(acc: AccountDetails) returns (rows: seq<CustomField>)
    ensures rows == AccountRows(acc)
  {
    rows := PushRow([], "Bank Name", acc.bankName, false);
    rows := PushRow(rows, "Account Holder", acc.accountHolderName, false);
    rows := PushRow(rows, "Account Number", acc.accountNumber, false);
    rows := PushRow(rows, "IBAN", acc.iban, false);
    rows := PushRow(rows, "SWIFT/BIC", acc.swiftBic, false);
    rows := PushRow(rows, "Branch Address", acc.branchAddress, true);
    AccountRowsPushed(acc);
  }

  /**
   * The pushes after the account rows: the caller's fields, then the purchase order,
   * creating the list on the first push when the account details did not.
   */
  method PushExtraFields(data: BuildInput, start: Option<seq<CustomField>>) returns (customFields: Option<seq<CustomField>>)
    requires start.Some? <==> data.accountDetails.Some?
    ensures customFields == CustomFieldsWith(data, if start.Some? then start.value else [])
  {
    var rows: seq<CustomField> := if start.Some? then start.value else [];
    customFields := start;
    if data.customFields.Some? && data.customFields.value != [] {
      rows := rows + data.customFields.value;
      customFields := Some(rows);
    }
    if data.invoice.purchaseOrder != [] {
      rows := rows + [CustomField("Purchase Order", data.invoice.purchaseOrder)];
      customFields := Some(rows);
    }
    assert rows == (if start.Some? then start.value else []) + ExtraFields(data) + PurchaseOrderRow(data);
  }

  /** The `custom_fields` list, created on the first push that needs it. */
  method PushCustomFields(data: BuildInput) returns (customFields: Option<seq<CustomField>>)
    ensures customFields == CustomFieldsOf(data)
  {
    if data.accountDetails.Some? {
      var rows := PushAccountRows(data.accountDetails.value);
      customFields := PushExtraFields(data, Some(rows));
    } else {
      customFields := PushExtraFields(data, None);
    }
  }

  /**
   * `buildInvoiceData(data)`: the fixed keys, then `custom_fields`, then `ship_to`. The
   * sender and recipient blocks, the custom fields and the ship-to block come from the
   * loops that build them; they agree with the payload `PayloadOf` describes.
   */
  method BuildInvoiceData(data: BuildInput, logo: Option<string>) returns (p: Payload)
    ensures p == PayloadOf(data, logo)
  {
    var from := InvoiceGenerator.FormatCompanyInfo(data.company);
    var to := InvoiceGenerator.FormatCustomerInfo(data.customer);
    var customFields := PushCustomFields(data);
    var shipTo: Option<string> := None;
    if data.shipTo.Some? {
      var lines := InvoiceGenerator.FormatCustomerInfo(data.shipTo.value);
      shipTo := Some(lines);
    }
    p := PayloadOf(data, logo).(from := from, to := to, customFields := customFields, shipTo := shipTo);
  }
}
