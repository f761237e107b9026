/**
 * The text helpers of src/services/invoiceGenerator.js: `cleanPath`, which drops a
 * repeated copy of a path's leading directories, and the two formatters that turn
 * the company and the customer into the multi-line `from` and `to` blocks. Paths
 * are POSIX ('/' separated); `path.normalize` is a parameter.
 */
module InvoiceGenerator {
  import opened Common
  import opened Invoices

  // ---- cleanPath ----

  /** The non-empty strings of a list, in order (`filter(p => p)`). */
  function NonEmptyParts(xs: seq<string>): (r: seq<string>)
    ensures |r| <= |xs|
    ensures forall i :: 0 <= i < |r| ==> r[i] != [] && r[i] in xs
  {
    if xs == [] then []
    else if xs[0] == [] then NonEmptyParts(xs[1..])
    else [xs[0]] + NonEmptyParts(xs[1..])
  }

  lemma {:induction false} NonEmptyPartsKeeps(xs: seq<string>)
    requires forall i :: 0 <= i < |xs| ==> xs[i] != []
    ensures NonEmptyParts(xs) == xs
  {
    if xs != [] {
      NonEmptyPartsKeeps(xs[1..]);
    }
  }

  /** `cleaned.split(path.sep).filter(p => p)` */
  function Segments(s: string): (r: seq<string>)
    ensures forall i :: 0 <= i < |r| ==> r[i] != [] && '/' !in r[i]
  {
    var parts := Split(s, '/');
    var r := NonEmptyParts(parts);
    assert forall i :: 0 <= i < |r| ==> r[i] in parts;
    r
  }

  /** How many segments from `j` on agree with their copies `i` places later, stopping at the first difference. */
  function MatchRun(parts: seq<string>, i: nat, j: nat): nat
    decreases i - j
  {
    if j < i && i + j < |parts| && parts[j] == parts[i + j] then 1 + MatchRun(parts, i, j + 1) else 0
  }

  /** Segment `i` repeats the first segment and starts a copy of at least the first two. */
  predicate DuplicateAt(parts: seq<string>, i: nat) {
    0 < i < |parts| && parts[i] == parts[0] && MatchRun(parts, i, 0) >= 2
  }

  /** The first position from `from` on where a copy of the leading segments starts. */
  function FirstDuplicate(parts: seq<string>, from: nat): (r: Option<nat>)
    ensures r.Some? ==> from <= r.value && DuplicateAt(parts, r.value)
    ensures r.Some? ==> forall k :: from <= k < r.value ==> !DuplicateAt(parts, k)
    ensures r.None? ==> forall k :: from <= k ==> !DuplicateAt(parts, k)
    decreases |parts| - from
  {
    if from >= |parts| then None
    else if DuplicateAt(parts, from) then Some(from)
    else FirstDuplicate(parts, from + 1)
  }

  /** What `cleanPath(filePath)` returns. */
  function CleanedPath(filePath: string, normalize: string -> string): string {
    if filePath == [] then filePath
    else
      var cleaned := normalize(filePath);
      var parts := Segments(cleaned);
      match FirstDuplicate(parts, 1)
      case None => cleaned
      case Some(i) => "/" + Join(parts[i..], "/")
  }

  /** `cleanPath(filePath)`, with its two nested loops. */
  method CleanPath(filePath: string, normalize: string -> string) returns (cleaned: string)
    ensures cleaned == CleanedPath(filePath, normalize)
  {
    if filePath == [] {
      return filePath;
    }
    cleaned := normalize(filePath);
    var parts := Segments(cleaned);
    var i := 1;
    while i < |parts|
      invariant 1 <= i
      invariant FirstDuplicate(parts, 1) == FirstDuplicate(parts, i)
    {
      var firstSegment := parts[0];
      if parts[i] == firstSegment {
        var matchCount := CountMatches(parts, i);
        if matchCount >= 2 {
          assert DuplicateAt(parts, i);
          assert FirstDuplicate(parts, i) == Some(i);
          return "/" + Join(parts[i..], "/");
        }
      }
      assert !DuplicateAt(parts, i);
      i := i + 1;
    }
    assert FirstDuplicate(parts, i) == None;
  }

  /** The inner loop of `cleanPath`: how many leading segments the copy starting at `i` repeats. */
  method CountMatches(parts: seq<string>, i: nat) returns (matchCount: nat)
    ensures matchCount == MatchRun(parts, i, 0)
  {
    matchCount := 0;
    var j := 0;
    while j < i && i + j < |parts|
      invariant 0 <= j <= i && matchCount == j
      invariant MatchRun(parts, i, 0) == j + MatchRun(parts, i, j)
    {
      if parts[j] == parts[i + j] {
        matchCount := matchCount + 1;
      } else {
        break;
      }
      j := j + 1;
    }
  }

  /** A leading '/' joined in front of non-empty pieces splits back into the pieces. */
  lemma RootedSegments(xs: seq<string>)
    requires |xs| >= 1
    requires forall i :: 0 <= i < |xs| ==> xs[i] != [] && '/' !in xs[i]
    ensures Segments("/" + Join(xs, "/")) == xs
  {
    var ys := [""] + xs;
    assert ys[1..] == xs;
    assert Join(ys, "/") == "/" + Join(xs, "/");
    SplitJoin(ys, '/');
    assert NonEmptyParts(ys) == NonEmptyParts(xs);
    NonEmptyPartsKeeps(xs);
  }

  /**
   * The result's segments are a tail of the normalised path's segments. When a copy was
   * cut, the result still begins with the path's first two segments, and no earlier
   * position held such a copy.
   */
  lemma CleanPathSuffix(filePath: string, normalize: string -> string)
    requires filePath != []
    ensures var parts := Segments(normalize(filePath));
      exists k :: 0 <= k <= |parts| && Segments(CleanedPath(filePath, normalize)) == parts[k..]
    ensures var parts := Segments(normalize(filePath));
      var r := Segments(CleanedPath(filePath, normalize));
      r != parts ==> |r| >= 2 && r[0] == parts[0] && r[1] == parts[1]
  {
    var parts := Segments(normalize(filePath));
    match FirstDuplicate(parts, 1)
    case None =>
      assert Segments(CleanedPath(filePath, normalize)) == parts[0..];
    case Some(i) =>
      RootedSegments(parts[i..]);
      assert MatchRun(parts, i, 0) >= 2;
      assert MatchRun(parts, i, 1) >= 1;
      assert Segments(CleanedPath(filePath, normalize)) == parts[i..];
  }

  /** A path whose first segment never repeats comes back normalised. */
  lemma NoRepeatUnchanged(filePath: string, normalize: string -> string)
    requires filePath != []
    requires var parts := Segments(normalize(filePath));
      forall k :: 0 < k < |parts| ==> parts[k] != parts[0]
    ensures CleanedPath(filePath, normalize) == normalize(filePath)
  {
  }

  // ---- formatCompanyInfo / formatCustomerInfo ----

  /** `[city, country].filter(Boolean).join(', ')` */
  function Location(city: string, country: string): (r: string)
    ensures r == [] <==> city == [] && country == []
  {
    if city != [] && country != [] then city + ", " + country
    else if city != [] then city
    else country
  }

  /** The field as a line of its own, when it is set. */
  function Field(value: string): seq<string> {
    if value != [] then [value] else []
  }

  /** The field after a label, when it is set. */
  function Labelled(title: string, value: string): seq<string> {
    if value != [] then [title + value] else []
  }

  /** No line of the list is empty. */
  predicate Blankless(lines: seq<string>) {
    forall i :: 0 <= i < |lines| ==> lines[i] != []
  }

  /** No line of the list holds a line break. */
  predicate SingleLines(lines: seq<string>) {
    forall i :: 0 <= i < |lines| ==> '\n' !in lines[i]
  }

  /** Both properties carry over to the concatenation of two lists. */
  lemma LinesConcat(a: seq<string>, b: seq<string>)
    ensures Blankless(a) && Blankless(b) ==> Blankless(a + b)
    ensures SingleLines(a) && SingleLines(b) ==> SingleLines(a + b)
  {
    forall i | |a| <= i < |a + b|
      ensures (a + b)[i] == b[i - |a|]
    {
    }
  }

  /** The lines of a contact block, in their fixed order, each only when its field is set. */
  function InfoLines(name: string, second: string, address: string, city: string, country: string,
                     phone: string, email: string, vatId: string): (r: seq<string>)
    ensures Blankless(r)
  {
    var l1 := Field(name) + Field(second);
    LinesConcat(Field(name), Field(second));
    var l2 := l1 + Field(address);
    LinesConcat(l1, Field(address));
    var l3 := l2 + Field(Location(city, country));
    LinesConcat(l2, Field(Location(city, country)));
    var l4 := l3 + Labelled("Phone: ", phone);
    LinesConcat(l3, Labelled("Phone: ", phone));
    var l5 := l4 + Labelled("Email: ", email);
    LinesConcat(l4, Labelled("Email: ", email));
    LinesConcat(l5, Labelled("VAT ID: ", vatId));
    l5 + Labelled("VAT ID: ", vatId)
  }

  /** The `from` block: the tagline is the second line. */
  function CompanyLines(c: Company): seq<string> {
    InfoLines(c.name, c.tagline, c.address, c.city, c.country, c.phone, c.email, c.vatId)
  }

  /** The `to` block: the customer's company is the second line. */
  function CustomerLines(c: Customer): seq<string> {
    InfoLines(c.name, c.company, c.address, c.city, c.country, c.phone, c.email, c.vatId)
  }

  /** The block is empty exactly when every field is; each line is one set field, so none is blank. */
  lemma InfoEmptyIff(name: string, second: string, address: string, city: string, country: string,
                     phone: string, email: string, vatId: string)
    ensures Join(InfoLines(name, second, address, city, country, phone, email, vatId), "\n") == [] <==>
      name == [] && second == [] && address == [] && city == [] && country == [] && phone == [] && email == [] && vatId == []
  {
    var lines := InfoLines(name, second, address, city, country, phone, email, vatId);
    JoinEmptyIff(lines, "\n");
    if name != [] { assert lines[0] == name; }
  }

  /**
   * With no line break inside any field, splitting the block at line breaks gives back
   * the lines, so every set field can be read back in order; with no field set the block
   * is empty. A set name is the first line.
   */
  lemma InfoLinesRecoverable(name: string, second: string, address: string, city: string, country: string,
                             phone: string, email: string, vatId: string)
    requires '\n' !in name && '\n' !in second && '\n' !in address && '\n' !in city && '\n' !in country
    requires '\n' !in phone && '\n' !in email && '\n' !in vatId
    ensures var lines := InfoLines(name, second, address, city, country, phone, email, vatId);
      lines != [] ==> Split(Join(lines, "\n"), '\n') == lines
    ensures InfoLines(name, second, address, city, country, phone, email, vatId) == [] ==>
      Join(InfoLines(name, second, address, city, country, phone, email, vatId), "\n") == []
    ensures name != [] ==>
      && |InfoLines(name, second, address, city, country, phone, email, vatId)| >= 1
      && InfoLines(name, second, address, city, country, phone, email, vatId)[0] == name
  {
    var lines := InfoLines(name, second, address, city, country, phone, email, vatId);
    InfoLinesSingle(name, second, address, city, country, phone, email, vatId);
    if name != [] {
      assert lines[0] == name;
    }
    if lines != [] {
      SplitJoin(lines, '\n');
    }
  }

  /** Fields without line breaks give lines without line breaks. */
  lemma InfoLinesSingle(name: string, second: string, address: string, city: string, country: string,
                        phone: string, email: string, vatId: string)
    requires '\n' !in name && '\n' !in second && '\n' !in address && '\n' !in city && '\n' !in country
    requires '\n' !in phone && '\n' !in email && '\n' !in vatId
    ensures SingleLines(InfoLines(name, second, address, city, country, phone, email, vatId))
  {
    var l1 := Field(name) + Field(second);
    var l2 := l1 + Field(address);
    var l3 := l2 + Field(Location(city, country));
    var l4 := l3 + Labelled("Phone: ", phone);
    var l5 := l4 + Labelled("Email: ", email);
    LocationSingle(city, country);
    LabelledSingle("Phone: ", phone);
    LabelledSingle("Email: ", email);
    LabelledSingle("VAT ID: ", vatId);
    LinesConcat(Field(name), Field(second));
    LinesConcat(l1, Field(address));
    LinesConcat(l2, Field(Location(city, country)));
    LinesConcat(l3, Labelled("Phone: ", phone));
    LinesConcat(l4, Labelled("Email: ", email));
    LinesConcat(l5, Labelled("VAT ID: ", vatId));
  }

  /** The location line has no line break when neither part has one. */
  lemma LocationSingle(city: string, country: string)
    requires '\n' !in city && '\n' !in country
    ensures SingleLines(Field(Location(city, country)))
  {
    assert forall c :: c in city + ", " + country ==> c in city || c in ", " || c in country;
  }

  /** A label without line breaks in front of a value without any gives a single line. */
  lemma LabelledSingle(title: string, value: string)
    requires '\n' !in title && '\n' !in value
    ensures SingleLines(Labelled(title, value))
  {
    if value != [] {
      assert forall c :: c in title + value ==> c in title || c in value;
    }
  }

  /** `if (value) lines.push(value)` */
  method PushField(lines: seq<string>, value: string) returns (pushed: seq<string>)
    ensures pushed == lines + Field(value)
  {
    pushed := lines;
    if value != [] {
      pushed := lines + [value];
    }
  }

  /** `if (value) lines.push(title + value)` */
  method PushLabelled(lines: seq<string>, title: string, value: string) returns (pushed: seq<string>)
    ensures pushed == lines + Labelled(title, value)
  {
    pushed := lines;
    if value != [] {
      pushed := lines + [title + value];
    }
  }

  /** The shared body of the two formatters: push each set field's line, then join with line breaks. */
  method FormatInfo(name: string, second: string, address: string, city: string, country: string,
                    phone: string, email: string, vatId: string) returns (text: string)
    ensures text == Join(InfoLines(name, second, address, city, country, phone, email, vatId), "\n")
  {
    var lines: seq<string> := [];
    lines := PushField(lines, name);
    assert lines == Field(name);
    lines := PushField(lines, second);
    lines := PushField(lines, address);
    if city != [] || country != [] {
      var location := Location(city, country);
      lines := PushField(lines, location);
    } else {
      assert lines == lines + Field(Location(city, country));
    }
    lines := PushLabelled(lines, "Phone: ", phone);
    lines := PushLabelled(lines, "Email: ", email);
    lines := PushLabelled(lines, "VAT ID: ", vatId);
    text := Join(lines, "\n");
  }

  /** `formatCompanyInfo(companyInfo)` */
  method FormatCompanyInfo(c: Company) returns (text: string)
    ensures text == Join(CompanyLines(c), "\n")
  {
    text := FormatInfo(c.name, c.tagline, c.address, c.city, c.country, c.phone, c.email, c.vatId);
  }

  /** `formatCustomerInfo(customerInfo)` */
  method FormatCustomerInfo(c: Customer) returns (text: string)
    ensures text == Join(CustomerLines(c), "\n")
  {
    text := FormatInfo(c.name, c.company, c.address, c.city, c.country, c.phone, c.email, c.vatId);
  }
}
