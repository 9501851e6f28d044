/**
 * The signer of a blob service shared access signature: it validates the
 * parameters, lays them out as the string-to-sign, signs that string with
 * the account key, and turns the result into the query items of a URL.
 *
 * Base64, HMAC-SHA256, UTF-8 encoding, the ISO 8601 formatter and the URL
 * builder are collaborators the signer calls but does not define; they come
 * in as the fields of a `Primitives` value.
 */
module Swazure {
  import opened Wrappers
  import opened Text
  import opened ServiceSAS

  type Bytes = seq<bv8>

  datatype Configuration = Configuration(accountName: string, accountKey: string)

  datatype Signer = Signer(config: Configuration)

  datatype SigningError = InvalidKey | InvalidURL | InvalidPermissions | InvalidExpiry

  datatype URLQueryItem = URLQueryItem(name: string, value: string)

  datatype URL = URL(absoluteString: string)

  /** The members of `URLComponents` the signer sets; a fresh value has none of them. */
  datatype URLComponents = URLComponents(
    scheme: Option<string>,
    host: Option<string>,
    path: string,
    queryItems: Option<seq<URLQueryItem>>)

  const EmptyComponents := URLComponents(None, None, "", None)

  /** The external collaborators, each a deterministic function. */
  datatype Primitives = Primitives(
    base64Decode: string -> Option<Bytes>,
    base64Encode: Bytes -> string,
    hmacSHA256: (Bytes, Bytes) -> Bytes,  // key, then message
    utf8: string -> Bytes,
    iso8601: Date -> string,
    url: URLComponents -> Option<URL>)

  // ---------------------------------------------------------------------------
  // Validation

  /** The checks made before anything is signed, against the time `now` of the call. */
  function Validate(p: Parameters, now: Date): (r: Result<(), SigningError>)
    ensures r.Failure? ==> r.error == InvalidPermissions || r.error == InvalidExpiry
  {
    if Description(p.permissions) == "" then Failure(InvalidPermissions)
    else if !(p.expiry > now) then Failure(InvalidExpiry)
    else Success(())
  }

  /**
   * Validation rejects a set with none of bits 0 to 15 first, whatever the
   * expiry; otherwise it rejects an expiry that is not strictly later than now.
   */
  lemma ValidateOutcome(p: Parameters, now: Date)
    ensures Validate(p, now) == Failure(InvalidPermissions) <==> p.permissions.rawValue & 0xFFFF == 0
    ensures Validate(p, now) == Failure(InvalidExpiry) <==>
      p.permissions.rawValue & 0xFFFF != 0 && p.expiry <= now
    ensures Validate(p, now).Success? <==> p.permissions.rawValue & 0xFFFF != 0 && p.expiry >= now + 1
  {
    DescriptionEmptyIff(p.permissions);
  }

  // ---------------------------------------------------------------------------
  // The string-to-sign

  function CanonicalizedResource(accountName: string, container: string, blobName: string): string
  {
    "/blob/" + accountName + "/" + container + "/" + blobName
  }

  /** The part before a separator that it does not contain is recovered from the joined string. */
  lemma SeparatorSplitsUniquely(x1: string, y1: string, x2: string, y2: string, sep: char)
    requires sep !in x1 && sep !in x2
    requires x1 + [sep] + y1 == x2 + [sep] + y2
    ensures x1 == x2 && y1 == y2
  {
    SplitAtFirst(x1, sep, y1);
    SplitAtFirst(x2, sep, y2);
    assert x1 == Split(x1 + [sep] + y1, sep)[0];
    assert x1 + [sep] + y1 == (x1 + [sep]) + y1;
    assert y1 == (x1 + [sep] + y1)[|x1| + 1..];
    assert y2 == (x2 + [sep] + y2)[|x2| + 1..];
  }

  /**
   * The canonicalized resource names the account, container and blob exactly
   * as given (no case folding): when account and container hold no '/', the
   * path determines all three.
   */
  lemma CanonicalizedResourceDetermines(a1: string, c1: string, b1: string, a2: string, c2: string, b2: string)
    requires '/' !in a1 && '/' !in c1 && '/' !in a2 && '/' !in c2
    requires CanonicalizedResource(a1, c1, b1) == CanonicalizedResource(a2, c2, b2)
    ensures a1 == a2 && c1 == c2 && b1 == b2
  {
    var prefix := "/blob/";
    assert CanonicalizedResource(a1, c1, b1) == prefix + (a1 + ['/'] + (c1 + ['/'] + b1));
    assert CanonicalizedResource(a2, c2, b2) == prefix + (a2 + ['/'] + (c2 + ['/'] + b2));
    var rest1 := a1 + ['/'] + (c1 + ['/'] + b1);
    var rest2 := a2 + ['/'] + (c2 + ['/'] + b2);
    assert rest1 == CanonicalizedResource(a1, c1, b1)[|prefix|..];
    assert rest2 == CanonicalizedResource(a2, c2, b2)[|prefix|..];
    SeparatorSplitsUniquely(a1, c1 + ['/'] + b1, a2, c2 + ['/'] + b2, '/');
    SeparatorSplitsUniquely(c1, b1, c2, b2, '/');
  }

  /** `start?.iso8601`: the formatted start, when there is one. */
  function FormattedStart(p: Parameters, iso8601: Date -> string): Option<string>
  {
    if p.start.Some? then Some(iso8601(p.start.value)) else None
  }

  /** The sixteen fields of the 2024-11-04 layout, in order; an absent value gives an empty field. */
  function StringToSignParts(p: Parameters, canonicalizedResource: string, iso8601: Date -> string): seq<string>
  {
    var h := HeadersOrNone(p.responseHeaders);
    [ Description(p.permissions),
      OrEmpty(FormattedStart(p, iso8601)),
      iso8601(p.expiry),
      canonicalizedResource,
      OrEmpty(p.identifier),
      OrEmpty(p.ipRange),
      HTTPProtocolRawValue(p.protocolType),
      VersionRawValue(p.version),
      ResourceRawValue(p.resource),
      "",
      "",
      OrEmpty(h.cacheControl),
      OrEmpty(h.contentDisposition),
      OrEmpty(h.contentEncoding),
      OrEmpty(h.contentLanguage),
      OrEmpty(h.contentType) ]
  }

  function StringToSign(config: Configuration, p: Parameters, container: string, blobName: string,
                        iso8601: Date -> string): string
  {
    Join(StringToSignParts(p, CanonicalizedResource(config.accountName, container, blobName), iso8601), "\n")
  }

  predicate NoNewline(o: Option<string>)
  {
    o.Some? ==> '\n' !in o.value
  }

  /** None of the caller's strings, nor the formatted dates, holds a newline. */
  predicate NewlineFree(config: Configuration, p: Parameters, container: string, blobName: string,
                        iso8601: Date -> string)
  {
    var h := HeadersOrNone(p.responseHeaders);
    '\n' !in config.accountName && '\n' !in container && '\n' !in blobName &&
    '\n' !in iso8601(p.expiry) && NoNewline(FormattedStart(p, iso8601)) &&
    NoNewline(p.identifier) && NoNewline(p.ipRange) &&
    NoNewline(h.cacheControl) && NoNewline(h.contentDisposition) && NoNewline(h.contentEncoding) &&
    NoNewline(h.contentLanguage) && NoNewline(h.contentType)
  }

  lemma PartsNewlineFree(config: Configuration, p: Parameters, container: string, blobName: string,
                         iso8601: Date -> string)
    requires NewlineFree(config, p, container, blobName, iso8601)
    ensures var parts := StringToSignParts(p, CanonicalizedResource(config.accountName, container, blobName), iso8601);
      |parts| == 16 && forall i :: 0 <= i < 16 ==> '\n' !in parts[i]
  {
    DescriptionLetters(p.permissions);
    var h := HeadersOrNone(p.responseHeaders);
    var parts := StringToSignParts(p, CanonicalizedResource(config.accountName, container, blobName), iso8601);
    ResourceNewlineFree(config.accountName, container, blobName);
    RawValuesNewlineFree(p);
    OrEmptyNewlineFree(FormattedStart(p, iso8601));
    OrEmptyNewlineFree(p.identifier);
    OrEmptyNewlineFree(p.ipRange);
    OrEmptyNewlineFree(h.cacheControl);
    OrEmptyNewlineFree(h.contentDisposition);
    OrEmptyNewlineFree(h.contentEncoding);
    OrEmptyNewlineFree(h.contentLanguage);
    OrEmptyNewlineFree(h.contentType);
    forall i | 0 <= i < 16 ensures '\n' !in parts[i] {
    }
  }

  lemma ResourceNewlineFree(accountName: string, container: string, blobName: string)
    requires '\n' !in accountName && '\n' !in container && '\n' !in blobName
    ensures '\n' !in CanonicalizedResource(accountName, container, blobName)
  {
  }

  lemma RawValuesNewlineFree(p: Parameters)
    ensures '\n' !in HTTPProtocolRawValue(p.protocolType)
    ensures '\n' !in VersionRawValue(p.version)
    ensures '\n' !in ResourceRawValue(p.resource)
  {
  }

  lemma OrEmptyNewlineFree(o: Option<string>)
    requires NoNewline(o)
    ensures '\n' !in OrEmpty(o)
  {
  }

  /** What each of the sixteen fields holds: every absent optional an empty field, fields 9 and 10 always empty. */
  lemma PartsLayout(p: Parameters, canonicalizedResource: string, iso8601: Date -> string)
    ensures var f := StringToSignParts(p, canonicalizedResource, iso8601);
      var h := p.responseHeaders;
      |f| == 16 &&
      f[0] == Description(p.permissions) &&
      f[1] == (if p.start.Some? then iso8601(p.start.value) else "") &&
      f[2] == iso8601(p.expiry) &&
      f[3] == canonicalizedResource &&
      f[4] == (if p.identifier.Some? then p.identifier.value else "") &&
      f[5] == (if p.ipRange.Some? then p.ipRange.value else "") &&
      f[6] == HTTPProtocolRawValue(p.protocolType) &&
      f[7] == VersionRawValue(p.version) &&
      f[8] == ResourceRawValue(p.resource) &&
      f[9] == "" && f[10] == "" &&
      f[11] == (if h.Some? && h.value.cacheControl.Some? then h.value.cacheControl.value else "") &&
      f[12] == (if h.Some? && h.value.contentDisposition.Some? then h.value.contentDisposition.value else "") &&
      f[13] == (if h.Some? && h.value.contentEncoding.Some? then h.value.contentEncoding.value else "") &&
      f[14] == (if h.Some? && h.value.contentLanguage.Some? then h.value.contentLanguage.value else "") &&
      f[15] == (if h.Some? && h.value.contentType.Some? then h.value.contentType.value else "")
  {
  }

  /** Splitting the string-to-sign at its newlines gives back the sixteen fields it was joined from. */
  lemma StringToSignReadsBack(config: Configuration, p: Parameters, container: string, blobName: string,
                              iso8601: Date -> string)
    requires NewlineFree(config, p, container, blobName, iso8601)
    ensures Split(StringToSign(config, p, container, blobName, iso8601), '\n') ==
      StringToSignParts(p, CanonicalizedResource(config.accountName, container, blobName), iso8601)
  {
    PartsNewlineFree(config, p, container, blobName, iso8601);
    SplitJoin(StringToSignParts(p, CanonicalizedResource(config.accountName, container, blobName), iso8601), '\n');
  }

  /**
   * The string-to-sign reads back as exactly sixteen newline-separated fields
   * in the fixed order, every absent optional an empty field and fields 9
   * and 10 always empty.
   */
  lemma StringToSignFields(config: Configuration, p: Parameters, container: string, blobName: string,
                           iso8601: Date -> string)
    requires NewlineFree(config, p, container, blobName, iso8601)
    ensures var f := Split(StringToSign(config, p, container, blobName, iso8601), '\n');
      var h := p.responseHeaders;
      |f| == 16 &&
      f[0] == Description(p.permissions) &&
      f[1] == (if p.start.Some? then iso8601(p.start.value) else "") &&
      f[2] == iso8601(p.expiry) &&
      f[3] == "/blob/" + config.accountName + "/" + container + "/" + blobName &&
      f[4] == (if p.identifier.Some? then p.identifier.value else "") &&
      f[5] == (if p.ipRange.Some? then p.ipRange.value else "") &&
      f[6] == HTTPProtocolRawValue(p.protocolType) &&
      f[7] == VersionRawValue(p.version) &&
      f[8] == ResourceRawValue(p.resource) &&
      f[9] == "" && f[10] == "" &&
      f[11] == (if h.Some? && h.value.cacheControl.Some? then h.value.cacheControl.value else "") &&
      f[12] == (if h.Some? && h.value.contentDisposition.Some? then h.value.contentDisposition.value else "") &&
      f[13] == (if h.Some? && h.value.contentEncoding.Some? then h.value.contentEncoding.value else "") &&
      f[14] == (if h.Some? && h.value.contentLanguage.Some? then h.value.contentLanguage.value else "") &&
      f[15] == (if h.Some? && h.value.contentType.Some? then h.value.contentType.value else "")
  {
    StringToSignReadsBack(config, p, container, blobName, iso8601);
    PartsLayout(p, CanonicalizedResource(config.accountName, container, blobName), iso8601);
  }

  /**
   * The string-to-sign commits to what it encodes: two newline-free calls
   * that sign the same string agree on every field, hence on the permission
   * letters, the resource path, the transport, the version and the resource kind.
   */
  lemma StringToSignCommits(config1: Configuration, p1: Parameters, container1: string, blob1: string,
                            config2: Configuration, p2: Parameters, container2: string, blob2: string,
                            iso8601: Date -> string)
    requires NewlineFree(config1, p1, container1, blob1, iso8601)
    requires NewlineFree(config2, p2, container2, blob2, iso8601)
    requires StringToSign(config1, p1, container1, blob1, iso8601) == StringToSign(config2, p2, container2, blob2, iso8601)
    ensures StringToSignParts(p1, CanonicalizedResource(config1.accountName, container1, blob1), iso8601)
         == StringToSignParts(p2, CanonicalizedResource(config2.accountName, container2, blob2), iso8601)
    ensures Description(p1.permissions) == Description(p2.permissions)
    ensures iso8601(p1.expiry) == iso8601(p2.expiry)
    ensures p1.protocolType == p2.protocolType && p1.version == p2.version && p1.resource == p2.resource
  {
    var parts1 := StringToSignParts(p1, CanonicalizedResource(config1.accountName, container1, blob1), iso8601);
    var parts2 := StringToSignParts(p2, CanonicalizedResource(config2.accountName, container2, blob2), iso8601);
    PartsNewlineFree(config1, p1, container1, blob1, iso8601);
    PartsNewlineFree(config2, p2, container2, blob2, iso8601);
    SplitJoin(parts1, '\n');
    SplitJoin(parts2, '\n');
    assert parts1 == parts2;
    assert parts1[6] == parts2[6] && parts1[7] == parts2[7] && parts1[8] == parts2[8];
    HTTPProtocolRoundTrip(p1.protocolType);
    HTTPProtocolRoundTrip(p2.protocolType);
    VersionRoundTrip(p1.version);
    VersionRoundTrip(p2.version);
    ResourceRoundTrip(p1.resource);
    ResourceRoundTrip(p2.resource);
  }

  // ---------------------------------------------------------------------------
  // The signature

  /** Base64 of the HMAC-SHA256 of the UTF-8 string-to-sign under the decoded key. */
  function Signature(keyData: Bytes, stringToSign: string, prims: Primitives): string
  {
    prims.base64Encode(prims.hmacSHA256(keyData, prims.utf8(stringToSign)))
  }

  // ---------------------------------------------------------------------------
  // Query items

  /** Every query name the signer can emit, in the order it emits them. */
  const QueryNames: seq<string> :=
    ["sv", "sr", "sp", "se", "spr", "sig", "st", "sip", "si", "rscc", "rscd", "rsce", "rscl", "rsct"]

  /** The value each name of `QueryNames` carries, when it has one; the first six always do. */
  function QueryValues(p: Parameters, sig: string, iso8601: Date -> string): (values: seq<Option<string>>)
    ensures |values| == |QueryNames|
  {
    var h := HeadersOrNone(p.responseHeaders);
    [ Some(VersionRawValue(p.version)),
      Some(ResourceRawValue(p.resource)),
      Some(Description(p.permissions)),
      Some(iso8601(p.expiry)),
      Some(HTTPProtocolRawValue(p.protocolType)),
      Some(sig),
      FormattedStart(p, iso8601),
      p.ipRange,
      p.identifier,
      h.cacheControl,
      h.contentDisposition,
      h.contentEncoding,
      h.contentLanguage,
      h.contentType ]
  }

  /** The item a name contributes: one when its value is present, none otherwise. */
  function ItemIfPresent(name: string, value: Option<string>): (items: seq<URLQueryItem>)
    ensures value.None? <==> items == []
    ensures value.Some? ==> items == [URLQueryItem(name, value.value)]
  {
    if value.Some? then [URLQueryItem(name, value.value)] else []
  }

  /** One item per name below index `n` whose value is present, in the order of the names. */
  function PresentUpTo(names: seq<string>, values: seq<Option<string>>, n: nat): seq<URLQueryItem>
    requires |names| == |values| && n <= |names|
  {
    if n == 0 then []
    else PresentUpTo(names, values, n - 1) + ItemIfPresent(names[n - 1], values[n - 1])
  }

  /** The query items of a signed URL: the names in order, each with its value when present. */
  function QueryItems(p: Parameters, sig: string, iso8601: Date -> string): seq<URLQueryItem>
  {
    PresentUpTo(QueryNames, QueryValues(p, sig, iso8601), |QueryNames|)
  }

  /** The value of the first item with the given name. */
  function Lookup(items: seq<URLQueryItem>, name: string): Option<string>
  {
    if items == [] then None
    else if items[0].name == name then Some(items[0].value)
    else Lookup(items[1..], name)
  }

  /** How many of the values with index in `[lo, n)` are present. */
  function CountPresent(values: seq<Option<string>>, lo: nat, n: nat): nat
    requires lo <= n <= |values|
  {
    if n == lo then 0 else CountPresent(values, lo, n - 1) + (if values[n - 1].Some? then 1 else 0)
  }

  predicate Distinct(names: seq<string>)
  {
    forall i, j :: 0 <= i < j < |names| ==> names[i] != names[j]
  }

  function IndexOf(names: seq<string>, name: string): (k: nat)
    requires name in names
    ensures k < |names| && names[k] == name
  {
    if names[0] == name then 0 else 1 + IndexOf(names[1..], name)
  }

  lemma {:induction false} IndexOfDistinct(names: seq<string>, i: nat)
    requires Distinct(names) && i < |names|
    ensures IndexOf(names, names[i]) == i
  {
    var k := IndexOf(names, names[i]);
    if k != i {
      assert false;
    }
  }

  lemma QueryNamesDistinct()
    ensures |QueryNames| == 14 && Distinct(QueryNames)
  {
  }

  /** Looking a name up in two lists put together finds it in the first when it is there. */
  lemma {:induction false} LookupAppend(xs: seq<URLQueryItem>, ys: seq<URLQueryItem>, name: string)
    ensures Lookup(xs + ys, name) == if Lookup(xs, name).Some? then Lookup(xs, name) else Lookup(ys, name)
    decreases |xs|
  {
    if xs == [] {
      assert xs + ys == ys;
    } else {
      assert (xs + ys)[0] == xs[0];
      assert (xs + ys)[1..] == xs[1..] + ys;
      LookupAppend(xs[1..], ys, name);
    }
  }

  /** Extending the bound by one appends the item of that name, if any. */
  lemma PresentStep(names: seq<string>, values: seq<Option<string>>, k: nat, name: string, value: Option<string>)
    requires |names| == |values| && k < |names| && names[k] == name && values[k] == value
    ensures PresentUpTo(names, values, k + 1) == PresentUpTo(names, values, k) + ItemIfPresent(name, value)
  {
  }

  /** The items below `lo` are a prefix of those below `n`, which add one per present value in between. */
  lemma {:induction false} PresentCount(names: seq<string>, values: seq<Option<string>>, lo: nat, n: nat)
    requires |names| == |values| && lo <= n <= |names|
    ensures |PresentUpTo(names, values, n)| == |PresentUpTo(names, values, lo)| + CountPresent(values, lo, n)
    ensures PresentUpTo(names, values, n)[..|PresentUpTo(names, values, lo)|] == PresentUpTo(names, values, lo)
    decreases n
  {
    if n > lo {
      PresentCount(names, values, lo, n - 1);
      var prefix := PresentUpTo(names, values, n - 1);
      assert PresentUpTo(names, values, n) == prefix + ItemIfPresent(names[n - 1], values[n - 1]);
      assert PresentUpTo(names, values, n)[..|prefix|] == prefix;
    }
  }

  /**
   * With distinct names, looking up a name of index below `n` finds exactly
   * the value it was given; any other name is not there.
   */
  lemma PresentLookup(names: seq<string>, values: seq<Option<string>>, n: nat, name: string)
    requires |names| == |values| && n <= |names| && Distinct(names)
    ensures name in names && IndexOf(names, name) < n ==>
      Lookup(PresentUpTo(names, values, n), name) == values[IndexOf(names, name)]
    ensures name !in names || IndexOf(names, name) >= n ==>
      Lookup(PresentUpTo(names, values, n), name) == None
  {
    if name in names {
      PresentLookupAt(names, values, n, IndexOf(names, name));
    } else {
      PresentLookupAbsent(names, values, n, name);
    }
  }

  /** The name of index `i` is found with its value when `i` is below `n`, and not at all otherwise. */
  lemma {:induction false} PresentLookupAt(names: seq<string>, values: seq<Option<string>>, n: nat, i: nat)
    requires |names| == |values| && n <= |names| && Distinct(names) && i < |names|
    ensures Lookup(PresentUpTo(names, values, n), names[i]) == if i < n then values[i] else None
    decreases n
  {
    if n > 0 {
      var prefix := PresentUpTo(names, values, n - 1);
      var last := ItemIfPresent(names[n - 1], values[n - 1]);
      assert PresentUpTo(names, values, n) == prefix + last;
      PresentLookupAt(names, values, n - 1, i);
      LookupAppend(prefix, last, names[i]);
      LookupItem(names[n - 1], values[n - 1], names[i]);
      if i != n - 1 {
        assert names[i] != names[n - 1];
      }
    }
  }

  /** A name no item carries is not found. */
  lemma {:induction false} LookupMissing(items: seq<URLQueryItem>, name: string)
    requires forall j :: 0 <= j < |items| ==> items[j].name != name
    ensures Lookup(items, name) == None
    decreases |items|
  {
    if items != [] {
      assert items[0].name != name;
      LookupMissing(items[1..], name);
    }
  }

  /** A name outside the list is never found. */
  lemma PresentLookupAbsent(names: seq<string>, values: seq<Option<string>>, n: nat, name: string)
    requires |names| == |values| && n <= |names| && Distinct(names) && name !in names
    ensures Lookup(PresentUpTo(names, values, n), name) == None
  {
    var items := PresentUpTo(names, values, n);
    PresentCarries(names, values, n);
    forall j | 0 <= j < |items|
      ensures items[j].name != name
    {
      assert items[j].name in names;
    }
    LookupMissing(items, name);
  }

  /** The item a name contributes is found under that name only, with the name's value. */
  lemma LookupItem(itemName: string, value: Option<string>, name: string)
    ensures Lookup(ItemIfPresent(itemName, value), name) == if name == itemName then value else None
  {
    if value.Some? {
      assert ItemIfPresent(itemName, value)[1..] == [];
    }
  }

  /** Every item carries a name of the list and the value given for that name. */
  predicate CarriesValues(items: seq<URLQueryItem>, names: seq<string>, values: seq<Option<string>>)
    requires |names| == |values|
  {
    forall j :: 0 <= j < |items| ==>
      items[j].name in names && values[IndexOf(names, items[j].name)] == Some(items[j].value)
  }

  /** The items' names occur in the order of the list. */
  predicate FollowsNames(items: seq<URLQueryItem>, names: seq<string>)
  {
    forall j, k :: 0 <= j < k < |items| ==>
      items[j].name in names && items[k].name in names &&
      IndexOf(names, items[j].name) < IndexOf(names, items[k].name)
  }

  /** Every item comes from a name below index `n`, with the value given for that name. */
  lemma {:induction false} PresentCarries(names: seq<string>, values: seq<Option<string>>, n: nat)
    requires |names| == |values| && n <= |names| && Distinct(names)
    ensures CarriesValues(PresentUpTo(names, values, n), names, values)
    ensures forall j :: 0 <= j < |PresentUpTo(names, values, n)| ==>
      PresentUpTo(names, values, n)[j].name in names && IndexOf(names, PresentUpTo(names, values, n)[j].name) < n
    decreases n
  {
    if n > 0 {
      var prefix := PresentUpTo(names, values, n - 1);
      var items := PresentUpTo(names, values, n);
      PresentCarries(names, values, n - 1);
      IndexOfDistinct(names, n - 1);
      if values[n - 1].Some? {
        assert items == prefix + [URLQueryItem(names[n - 1], values[n - 1].value)];
        forall j | 0 <= j < |items|
          ensures items[j].name in names && values[IndexOf(names, items[j].name)] == Some(items[j].value)
          ensures IndexOf(names, items[j].name) < n
        {
          if j < |prefix| {
            assert items[j] == prefix[j];
          }
        }
      } else {
        assert items == prefix;
      }
    }
  }

  /** The items follow the order of the names, so no name appears twice. */
  lemma {:induction false} PresentOrdered(names: seq<string>, values: seq<Option<string>>, n: nat)
    requires |names| == |values| && n <= |names| && Distinct(names)
    ensures FollowsNames(PresentUpTo(names, values, n), names)
    decreases n
  {
    if n > 0 {
      var prefix := PresentUpTo(names, values, n - 1);
      var items := PresentUpTo(names, values, n);
      PresentOrdered(names, values, n - 1);
      PresentCarries(names, values, n - 1);
      IndexOfDistinct(names, n - 1);
      if values[n - 1].Some? {
        assert items == prefix + [URLQueryItem(names[n - 1], values[n - 1].value)];
        forall i, j | 0 <= i < j < |items|
          ensures items[i].name in names && items[j].name in names
          ensures IndexOf(names, items[i].name) < IndexOf(names, items[j].name)
        {
          assert items[i] == prefix[i];
          if j < |prefix| {
            assert items[j] == prefix[j];
          }
        }
      } else {
        assert items == prefix;
      }
    }
  }

  /** The six mandatory items, which every signed URL carries first and in this order. */
  function MandatoryItems(p: Parameters, sig: string, iso8601: Date -> string): seq<URLQueryItem>
  {
    [ URLQueryItem("sv", VersionRawValue(p.version)),
      URLQueryItem("sr", ResourceRawValue(p.resource)),
      URLQueryItem("sp", Description(p.permissions)),
      URLQueryItem("se", iso8601(p.expiry)),
      URLQueryItem("spr", HTTPProtocolRawValue(p.protocolType)),
      URLQueryItem("sig", sig) ]
  }

  /** When the first six values are present, the first six names give one item each, in order. */
  lemma PresentFirstSix(names: seq<string>, values: seq<Option<string>>)
    requires |names| == |values| >= 6
    requires values[0].Some? && values[1].Some? && values[2].Some? && values[3].Some? && values[4].Some? && values[5].Some?
    ensures PresentUpTo(names, values, 6) ==
      [ URLQueryItem(names[0], values[0].value), URLQueryItem(names[1], values[1].value),
        URLQueryItem(names[2], values[2].value), URLQueryItem(names[3], values[3].value),
        URLQueryItem(names[4], values[4].value), URLQueryItem(names[5], values[5].value) ]
  {
    assert PresentUpTo(names, values, 1) == [URLQueryItem(names[0], values[0].value)];
    assert PresentUpTo(names, values, 2) == PresentUpTo(names, values, 1) + [URLQueryItem(names[1], values[1].value)];
    assert PresentUpTo(names, values, 3) == PresentUpTo(names, values, 2) + [URLQueryItem(names[2], values[2].value)];
    assert PresentUpTo(names, values, 4) == PresentUpTo(names, values, 3) + [URLQueryItem(names[3], values[3].value)];
    assert PresentUpTo(names, values, 5) == PresentUpTo(names, values, 4) + [URLQueryItem(names[4], values[4].value)];
    assert PresentUpTo(names, values, 6) == PresentUpTo(names, values, 5) + [URLQueryItem(names[5], values[5].value)];
  }

  /** The first six names always carry a value, so they give the mandatory items. */
  lemma MandatoryFirst(p: Parameters, sig: string, iso8601: Date -> string)
    ensures PresentUpTo(QueryNames, QueryValues(p, sig, iso8601), 6) == MandatoryItems(p, sig, iso8601)
  {
    var values := QueryValues(p, sig, iso8601);
    PresentFirstSix(QueryNames, values);
  }

  /** The six mandatory items come first, in order, followed by one item per present optional value. */
  lemma QueryItemsLayout(p: Parameters, sig: string, iso8601: Date -> string)
    ensures |QueryItems(p, sig, iso8601)| == 6 + CountPresent(QueryValues(p, sig, iso8601), 6, 14)
    ensures QueryItems(p, sig, iso8601)[..6] == MandatoryItems(p, sig, iso8601)
  {
    MandatoryFirst(p, sig, iso8601);
    PresentCount(QueryNames, QueryValues(p, sig, iso8601), 6, 14);
  }

  /**
   * Each of the fourteen names carries its own value exactly when that value
   * is present, and no other name appears.
   */
  lemma QueryItemsLookup(p: Parameters, sig: string, iso8601: Date -> string)
    ensures forall i :: 0 <= i < |QueryNames| ==>
      Lookup(QueryItems(p, sig, iso8601), QueryNames[i]) == QueryValues(p, sig, iso8601)[i]
    ensures forall name :: name !in QueryNames ==> Lookup(QueryItems(p, sig, iso8601), name) == None
  {
    QueryNamesDistinct();
    var values := QueryValues(p, sig, iso8601);
    forall i | 0 <= i < |QueryNames|
      ensures Lookup(QueryItems(p, sig, iso8601), QueryNames[i]) == values[i]
    {
      PresentLookup(QueryNames, values, |QueryNames|, QueryNames[i]);
      IndexOfDistinct(QueryNames, i);
    }
    forall name | name !in QueryNames
      ensures Lookup(QueryItems(p, sig, iso8601), name) == None
    {
      PresentLookup(QueryNames, values, |QueryNames|, name);
    }
  }

  /** The items follow the fixed name order, so every name appears at most once. */
  lemma QueryItemsOrdered(p: Parameters, sig: string, iso8601: Date -> string)
    ensures FollowsNames(QueryItems(p, sig, iso8601), QueryNames)
    ensures forall j, k :: 0 <= j < k < |QueryItems(p, sig, iso8601)| ==>
      QueryItems(p, sig, iso8601)[j].name != QueryItems(p, sig, iso8601)[k].name
  {
    QueryNamesDistinct();
    PresentOrdered(QueryNames, QueryValues(p, sig, iso8601), |QueryNames|);
  }

  /** When every value below `n` is present, there is one item per name, in the names' order. */
  lemma {:induction false} AllPresent(names: seq<string>, values: seq<Option<string>>, n: nat)
    requires |names| == |values| && n <= |names|
    requires forall i :: 0 <= i < n ==> values[i].Some?
    ensures |PresentUpTo(names, values, n)| == n
    ensures forall i :: 0 <= i < n ==> PresentUpTo(names, values, n)[i] == URLQueryItem(names[i], values[i].value)
  {
    if n > 0 {
      AllPresent(names, values, n - 1);
      var prefix := PresentUpTo(names, values, n - 1);
      assert PresentUpTo(names, values, n) == prefix + [URLQueryItem(names[n - 1], values[n - 1].value)];
    }
  }

  /**
   * With every optional parameter and every response header set, the query
   * holds all fourteen names, each once, in the fixed order, each with its value.
   */
  lemma QueryCompleteness(p: Parameters, sig: string, iso8601: Date -> string)
    requires p.start.Some? && p.ipRange.Some? && p.identifier.Some? && p.responseHeaders.Some?
    requires var h := p.responseHeaders.value;
      h.cacheControl.Some? && h.contentDisposition.Some? && h.contentEncoding.Some? &&
      h.contentLanguage.Some? && h.contentType.Some?
    ensures |QueryItems(p, sig, iso8601)| == |QueryNames| == 14
    ensures forall i :: 0 <= i < 14 ==>
      QueryItems(p, sig, iso8601)[i].name == QueryNames[i] &&
      QueryValues(p, sig, iso8601)[i] == Some(QueryItems(p, sig, iso8601)[i].value)
  {
    var values := QueryValues(p, sig, iso8601);
    OptionalQueryValues(p, sig, iso8601);
    assert forall i :: 0 <= i < 14 ==> values[i].Some?;
    AllPresent(QueryNames, values, 14);
  }

  /** The names and values of the eight optional items. */
  lemma OptionalQueryValues(p: Parameters, sig: string, iso8601: Date -> string)
    ensures QueryNames[6..] == ["st", "sip", "si", "rscc", "rscd", "rsce", "rscl", "rsct"]
    ensures var values := QueryValues(p, sig, iso8601);
      var h := HeadersOrNone(p.responseHeaders);
      values[6] == FormattedStart(p, iso8601) && values[7] == p.ipRange && values[8] == p.identifier &&
      values[9] == h.cacheControl && values[10] == h.contentDisposition && values[11] == h.contentEncoding &&
      values[12] == h.contentLanguage && values[13] == h.contentType
  {
  }

  /** Names 9 to 13 without a value add nothing after the first nine names. */
  lemma NoHeaderItems(names: seq<string>, values: seq<Option<string>>)
    requires |names| == |values| == 14
    requires values[9].None? && values[10].None? && values[11].None? && values[12].None? && values[13].None?
    ensures PresentUpTo(names, values, 14) == PresentUpTo(names, values, 9)
  {
    assert PresentUpTo(names, values, 10) == PresentUpTo(names, values, 9);
    assert PresentUpTo(names, values, 11) == PresentUpTo(names, values, 9);
    assert PresentUpTo(names, values, 12) == PresentUpTo(names, values, 9);
    assert PresentUpTo(names, values, 13) == PresentUpTo(names, values, 9);
  }

  /** Appends the item of name `k` when its value is present: one `if let` step of `signedQueryItems`. */
  method AppendIfPresent(items: seq<URLQueryItem>, ghost names: seq<string>, ghost values: seq<Option<string>>,
                         ghost k: nat, name: string, value: Option<string>)
    returns (r: seq<URLQueryItem>)
    requires |names| == |values| && k < |names| && names[k] == name && values[k] == value
    requires items == PresentUpTo(names, values, k)
    ensures r == PresentUpTo(names, values, k + 1)
  {
    r := items;
    if value.Some? {
      r := r + [URLQueryItem(name, value.value)];
    }
  }

  /**
   * The second half of `signedQueryItems`: after the mandatory items, appends
   * the item of each optional parameter that is set, in the fixed order.
   */
  method AppendOptionalItems(mandatory: seq<URLQueryItem>, p: Parameters, ghost sig: string, iso8601: Date -> string)
    returns (items: seq<URLQueryItem>)
    requires mandatory == PresentUpTo(QueryNames, QueryValues(p, sig, iso8601), 6)
    ensures items == QueryItems(p, sig, iso8601)
  {
    ghost var values := QueryValues(p, sig, iso8601);
    OptionalQueryValues(p, sig, iso8601);
    items := AppendIfPresent(mandatory, QueryNames, values, 6, "st", FormattedStart(p, iso8601));
    items := AppendIfPresent(items, QueryNames, values, 7, "sip", p.ipRange);
    items := AppendIfPresent(items, QueryNames, values, 8, "si", p.identifier);
    if p.responseHeaders.Some? {
      var headers := p.responseHeaders.value;
      items := AppendIfPresent(items, QueryNames, values, 9, "rscc", headers.cacheControl);
      items := AppendIfPresent(items, QueryNames, values, 10, "rscd", headers.contentDisposition);
      items := AppendIfPresent(items, QueryNames, values, 11, "rsce", headers.contentEncoding);
      items := AppendIfPresent(items, QueryNames, values, 12, "rscl", headers.contentLanguage);
      items := AppendIfPresent(items, QueryNames, values, 13, "rsct", headers.contentType);
    } else {
      NoHeaderItems(QueryNames, values);
    }
  }

  /**
   * `signedQueryItems`: builds the string-to-sign, decodes the key (failing
   * with `invalidKey` before anything is signed), signs, and appends the
   * mandatory items and then each present optional one.
   */
  method SignedQueryItems(signer: Signer, p: Parameters, container: string, blobName: string, prims: Primitives)
    returns (r: Result<seq<URLQueryItem>, SigningError>)
    ensures prims.base64Decode(signer.config.accountKey).None? ==> r == Failure(InvalidKey)
    ensures prims.base64Decode(signer.config.accountKey).Some? ==>
      r == Success(QueryItems(p,
        Signature(prims.base64Decode(signer.config.accountKey).value,
                  StringToSign(signer.config, p, container, blobName, prims.iso8601), prims),
        prims.iso8601))
  {
    var canonicalizedResource := CanonicalizedResource(signer.config.accountName, container, blobName);
    var parts := StringToSignParts(p, canonicalizedResource, prims.iso8601);

    var keyData := prims.base64Decode(signer.config.accountKey);
    if keyData.None? {
      return Failure(InvalidKey);
    }

    var signature := prims.hmacSHA256(keyData.value, prims.utf8(Join(parts, "\n")));
    var sig := prims.base64Encode(signature);

    var items := [
      URLQueryItem("sv", VersionRawValue(p.version)),
      URLQueryItem("sr", ResourceRawValue(p.resource)),
      URLQueryItem("sp", Description(p.permissions)),
      URLQueryItem("se", prims.iso8601(p.expiry)),
      URLQueryItem("spr", HTTPProtocolRawValue(p.protocolType)),
      URLQueryItem("sig", sig)
    ];
    MandatoryFirst(p, sig, prims.iso8601);
    items := AppendOptionalItems(items, p, sig, prims.iso8601);
    return Success(items);
  }

  // ---------------------------------------------------------------------------
  // The signed URL

  /** The host of the account's blob endpoint. */
  function BlobHost(accountName: string): string
  {
    accountName + ".blob.core.windows.net"
  }

  /** The URL path of a blob: the container and the blob name, each after a '/'. */
  function BlobPath(container: string, blobName: string): string
  {
    "/" + container + "/" + blobName
  }

  /** The components handed to the URL builder once the query items exist. */
  function SignedComponents(config: Configuration, container: string, blobName: string,
                            items: seq<URLQueryItem>): URLComponents
  {
    URLComponents(Some("https"), Some(BlobHost(config.accountName)), BlobPath(container, blobName), Some(items))
  }

  /**
   * What `signedURL(for:container:blobName:)` returns or throws: validation
   * first, then the key, then the URL builder.
   */
  function SignedURLOutcome(signer: Signer, p: Parameters, container: string, blobName: string,
                            now: Date, prims: Primitives): Result<URL, SigningError>
  {
    var validation := Validate(p, now);
    if validation.Failure? then Failure(validation.error)
    else
      var keyData := prims.base64Decode(signer.config.accountKey);
      if keyData.None? then Failure(InvalidKey)
      else
        var sig := Signature(keyData.value, StringToSign(signer.config, p, container, blobName, prims.iso8601), prims);
        var url := prims.url(SignedComponents(signer.config, container, blobName, QueryItems(p, sig, prims.iso8601)));
        if url.None? then Failure(InvalidURL) else Success(url.value)
  }

  /**
   * The four errors come in a fixed order, each exactly when every earlier
   * check passes and its own fails; otherwise the URL is the one the builder
   * makes from the https scheme, the account's blob host, the blob's path
   * and the signed query items.
   */
  lemma SignedURLErrors(signer: Signer, p: Parameters, container: string, blobName: string,
                        now: Date, prims: Primitives)
    ensures var r := SignedURLOutcome(signer, p, container, blobName, now, prims);
      r == Failure(InvalidPermissions) <==> p.permissions.rawValue & 0xFFFF == 0
    ensures var r := SignedURLOutcome(signer, p, container, blobName, now, prims);
      r == Failure(InvalidExpiry) <==> p.permissions.rawValue & 0xFFFF != 0 && p.expiry <= now
    ensures var r := SignedURLOutcome(signer, p, container, blobName, now, prims);
      r == Failure(InvalidKey) <==>
        p.permissions.rawValue & 0xFFFF != 0 && p.expiry > now && prims.base64Decode(signer.config.accountKey).None?
    ensures var r := SignedURLOutcome(signer, p, container, blobName, now, prims);
      var keyData := prims.base64Decode(signer.config.accountKey);
      r.Failure? && r.error == InvalidURL <==>
        p.permissions.rawValue & 0xFFFF != 0 && p.expiry > now && keyData.Some? &&
        prims.url(URLComponents(Some("https"), Some(signer.config.accountName + ".blob.core.windows.net"),
          "/" + container + "/" + blobName,
          Some(QueryItems(p, Signature(keyData.value, StringToSign(signer.config, p, container, blobName, prims.iso8601), prims),
                          prims.iso8601)))).None?
    ensures var r := SignedURLOutcome(signer, p, container, blobName, now, prims);
      var keyData := prims.base64Decode(signer.config.accountKey);
      r.Success? ==>
        keyData.Some? &&
        Some(r.value) == prims.url(URLComponents(Some("https"), Some(signer.config.accountName + ".blob.core.windows.net"),
          "/" + container + "/" + blobName,
          Some(QueryItems(p, Signature(keyData.value, StringToSign(signer.config, p, container, blobName, prims.iso8601), prims),
                          prims.iso8601))))
  {
    ValidateOutcome(p, now);
  }

  /**
   * Private `signedURL(for:container:blobName:)`: validates, signs, then
   * fills a fresh `URLComponents` one member at a time and asks it for a URL.
   */
  method SignedURLFor(signer: Signer, p: Parameters, container: string, blobName: string, now: Date, prims: Primitives)
    returns (r: Result<URL, SigningError>)
    ensures r == SignedURLOutcome(signer, p, container, blobName, now, prims)
  {
    var validation := Validate(p, now);
    if validation.Failure? {
      return Failure(validation.error);
    }

    var queryItems := SignedQueryItems(signer, p, container, blobName, prims);
    if queryItems.Failure? {
      return Failure(queryItems.error);
    }

    var components := EmptyComponents;
    components := components.(scheme := Some("https"));
    components := components.(host := Some(signer.config.accountName + ".blob.core.windows.net"));
    components := components.(path := "/" + container + "/" + blobName);
    components := components.(queryItems := Some(queryItems.value));

    var url := prims.url(components);
    if url.None? {
      return Failure(InvalidURL);
    }
    return Success(url.value);
  }

  /** The parameters the public `signedURL` fixes around what its caller passes. */
  function PublicParameters(permissions: Permission, start: Date, expiry: Date,
                            responseHeaders: Option<ResponseHeaders>): Parameters
  {
    Parameters(permissions, Blob, Some(start), expiry, None, None, HttpsOnly, V2024_11_04, responseHeaders)
  }

  /**
   * Public `signedURL`: a blob resource, the given start, no identifier or
   * address range, https only, version 2024-11-04.
   */
  method SignedURL(signer: Signer, container: string, blob: string, permissions: Permission, start: Date,
                   expiry: Date, responseHeaders: Option<ResponseHeaders>, now: Date, prims: Primitives)
    returns (r: Result<URL, SigningError>)
    ensures r == SignedURLOutcome(signer, PublicParameters(permissions, start, expiry, responseHeaders),
                                  container, blob, now, prims)
  {
    var parameters := Parameters(
      permissions := permissions,
      resource := Blob,
      start := Some(start),
      expiry := expiry,
      identifier := None,
      ipRange := None,
      protocolType := HttpsOnly,
      version := V2024_11_04,
      responseHeaders := responseHeaders);
    r := SignedURLFor(signer, parameters, container, blob, now, prims);
  }

  /**
   * A URL from the public entry point always names a blob resource, version
   * 2024-11-04, https only and the start time, and never an address range or
   * a stored policy identifier.
   */
  lemma PublicQueryShape(permissions: Permission, start: Date, expiry: Date,
                         responseHeaders: Option<ResponseHeaders>, sig: string, iso8601: Date -> string)
    ensures var items := QueryItems(PublicParameters(permissions, start, expiry, responseHeaders), sig, iso8601);
      Lookup(items, "sv") == Some("2024-11-04") && Lookup(items, "sr") == Some("b") &&
      Lookup(items, "sp") == Some(Description(permissions)) && Lookup(items, "se") == Some(iso8601(expiry)) &&
      Lookup(items, "spr") == Some("https") && Lookup(items, "sig") == Some(sig) &&
      Lookup(items, "st") == Some(iso8601(start)) &&
      Lookup(items, "sip") == None && Lookup(items, "si") == None
  {
    var p := PublicParameters(permissions, start, expiry, responseHeaders);
    var items := QueryItems(p, sig, iso8601);
    var values := QueryValues(p, sig, iso8601);
    QueryItemsLookup(p, sig, iso8601);
    assert Lookup(items, QueryNames[0]) == values[0];
    assert Lookup(items, QueryNames[1]) == values[1];
    assert Lookup(items, QueryNames[2]) == values[2];
    assert Lookup(items, QueryNames[3]) == values[3];
    assert Lookup(items, QueryNames[4]) == values[4];
    assert Lookup(items, QueryNames[5]) == values[5];
    assert Lookup(items, QueryNames[6]) == values[6];
    assert Lookup(items, QueryNames[7]) == values[7];
    assert Lookup(items, QueryNames[8]) == values[8];
  }

  /** The sixteen fields of the worked scenario. */
  const WorkedFields: seq<string> :=
    ["rw", "2024-01-01T00:00:00Z", "2024-01-02T00:00:00Z", "/blob/account1/c/b.txt",
     "", "", "https", "2024-11-04", "b", "", "", "", "", "", "", ""]

  /**
   * The worked scenario: account "account1", container "c", blob "b.txt",
   * read and write, a start and an expiry, no response headers.
   */
  lemma WorkedScenarioFields(accountKey: string, start: Date, expiry: Date, iso8601: Date -> string)
    requires iso8601(start) == "2024-01-01T00:00:00Z" && iso8601(expiry) == "2024-01-02T00:00:00Z"
    ensures StringToSignParts(PublicParameters(Union(Read, Write), start, expiry, None),
                              CanonicalizedResource("account1", "c", "b.txt"), iso8601) == WorkedFields
  {
    DescriptionReadWrite();
    assert CanonicalizedResource("account1", "c", "b.txt") == "/blob/account1/c/b.txt";
  }

  /**
   * The worked scenario's string-to-sign is its sixteen fields joined with
   * newlines, and reads back as exactly those fields.
   */
  lemma WorkedScenario(accountKey: string, start: Date, expiry: Date, iso8601: Date -> string)
    requires iso8601(start) == "2024-01-01T00:00:00Z" && iso8601(expiry) == "2024-01-02T00:00:00Z"
    ensures var sts := StringToSign(Configuration("account1", accountKey),
                                    PublicParameters(Union(Read, Write), start, expiry, None), "c", "b.txt", iso8601);
      sts == Join(WorkedFields, "\n") && Split(sts, '\n') == WorkedFields
  {
    var config := Configuration("account1", accountKey);
    var p := PublicParameters(Union(Read, Write), start, expiry, None);
    WorkedScenarioFields(accountKey, start, expiry, iso8601);
    assert NewlineFree(config, p, "c", "b.txt", iso8601);
    StringToSignReadsBack(config, p, "c", "b.txt", iso8601);
  }
}
