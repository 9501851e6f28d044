# Swazure service SAS signer in Dafny

This project models the signer of Swazure, a Swift library that issues Azure
Storage *service shared access signatures* (SAS) for a single blob. A SAS is a
signed URL query string that grants time- and permission-limited access to a
blob without handing out the account key. The model covers:

- **Permissions.** The `ServiceSAS.Permission` option set over a 64-bit
  integer. Sixteen capability bits are named. `description` walks a
  hand-written table of (flag, letter) pairs and keeps the letter of each flag
  the set contains.
- **Closed vocabularies.** The raw strings of `Resource` (`b c f q t`),
  `HTTPProtocol` (`https`, `https,http`) and `Version` (five dates). Each has
  the failable `init(rawValue:)` a string-backed enumeration gets.
- **Parameters.** `ResponseHeaders` and the `ServiceSAS` parameter struct. Its
  defaults are https only and version 2024-11-04.
- **Validation.** `validate` is a function of the parameters and an explicit
  `now`.
- **The string-to-sign.** Sixteen fields joined with `"\n"`. An absent value
  gives an empty field. Field 3 is the canonicalized resource
  `/blob/{account}/{container}/{blob}`.
- **`signedQueryItems`.** An imperative method. It decodes the key, signs, and
  appends the six mandatory query items and then each optional item that is
  present. It is proved equal to a specification function, `QueryItems`. The
  layout, lookup and ordering properties are proved about that function.
- **`signedURL`.** The private `signedURL(for:container:blobName:)` validates,
  signs, then fills a fresh `URLComponents` member by member. The public
  `signedURL` fixes resource, transport, version, identifier and address range.
  Both are methods proved equal to `SignedURLOutcome`, the function that fixes
  the order of the four errors.

HMAC-SHA256, base64, UTF-8 encoding, the ISO 8601 formatter and the URL
builder are not part of this model. They come in as the fields of a
`Primitives` value: arbitrary deterministic functions, with base64 decoding and
URL building partial. The clock `Date()` becomes the parameter `now`.

Files:

- `wrappers.dfy`: `Option` and `Result`.
- `text.dfy`: `joined(separator:)` and a field splitter that undoes it.
- `service_sas.dfy`: the value types of `ServiceSAS.swift`.
- `swazure.dfy`: the signer of `Swazure.swift`.

## Model

| member | source | states |
|---|---|---|
| `ServiceSAS.ResourceFromRawValue` | Sources/Swazure/ServiceSAS.swift:14-20 | a code that parses gives a resource whose raw value is that code |
| `ServiceSAS.ResourceRoundTrip` | Sources/Swazure/ServiceSAS.swift:14-20 | every resource's code parses back to that resource and is one letter |
| `ServiceSAS.ResourceCodesDistinct` | Sources/Swazure/ServiceSAS.swift:14-20 | two resources with the same code are the same resource |
| `ServiceSAS.HTTPProtocolFromRawValue` | Sources/Swazure/ServiceSAS.swift:66-69 | a string that parses gives a transport whose raw value is that string |
| `ServiceSAS.HTTPProtocolRoundTrip` | Sources/Swazure/ServiceSAS.swift:66-69 | `https` and `https,http` each parse back to their transport |
| `ServiceSAS.VersionFromRawValue` | Sources/Swazure/ServiceSAS.swift:71-77 | a string that parses gives a version whose raw value is that string |
| `ServiceSAS.VersionRoundTrip` | Sources/Swazure/ServiceSAS.swift:71-77 | each version parses back to itself, so the five raw values are distinct, and each is a `yyyy-MM-dd` date |
| `ServiceSAS.CompactMapFrom` | Sources/Swazure/ServiceSAS.swift:50 | walking the flag table from entry k keeps exactly the letters of the set bits from k on, in table order |
| `ServiceSAS.LettersFromSpell` | Sources/Swazure/ServiceSAS.swift:43-49 | those letters are, one for one, the canonical letters of the set bits in ascending order |
| `ServiceSAS.DescriptionSpellsSetBits` | Sources/Swazure/ServiceSAS.swift:42-51 | `description` has one letter per set bit among 0 to 15; its j-th letter belongs to the j-th set bit in ascending order (`rwdlacupxytmeopi`), so absent flags give nothing |
| `ServiceSAS.DescriptionLetters` | Sources/Swazure/ServiceSAS.swift:42-51 | every letter of a description is a canonical letter, so it never holds a newline |
| `ServiceSAS.DescriptionLength` | Sources/Swazure/ServiceSAS.swift:43-50 | the length of `description` is the number of set bits among 0 to 15, at most 16 |
| `ServiceSAS.DescriptionEmptyIff` | Sources/Swazure/ServiceSAS.swift:25-50 | `description` is empty if and only if none of bits 0 to 15 is set |
| `ServiceSAS.DescriptionIgnoresHighBits` | Sources/Swazure/ServiceSAS.swift:22-51 | bits above 15 do not change `description` |
| `ServiceSAS.DescriptionDependsOnFlagsOnly` | Sources/Swazure/ServiceSAS.swift:42-51 | two sets with the same bits among 0 to 15 have the same description |
| `ServiceSAS.UnionCommutes` | Sources/Swazure/ServiceSAS.swift:22-23 | the option-set union does not depend on operand order |
| `ServiceSAS.UnionAssociates` | Sources/Swazure/ServiceSAS.swift:22-23 | the option-set union does not depend on grouping |
| `ServiceSAS.DescriptionUnionOrder` | Sources/Swazure/ServiceSAS.swift:22-50 | any order or grouping of unions gives the same description |
| `ServiceSAS.DescriptionSingleFlag` | Sources/Swazure/ServiceSAS.swift:25-48 | the set holding only bit i describes as the i-th canonical letter |
| `ServiceSAS.DescriptionReadWrite` | Sources/Swazure/ServiceSAS.swift:25-26 | read together with write describes as `rw` |
| `ServiceSAS.ProcessAliasesPermissionManagement` | Sources/Swazure/ServiceSAS.swift:32-48 | `process` (bit 7) and `permissionManagement` (bit 14) are different sets that both describe as `p` |
| `ServiceSAS.DescriptionNotInjective` | Sources/Swazure/ServiceSAS.swift:42-51 | two different sets can share a description |
| `ServiceSAS.HeadersOrNone` | Sources/Swazure/Swazure.swift:76-80 | optional chaining through an absent header struct reads every header as absent |
| `ServiceSAS.ParametersDefaults` | Sources/Swazure/ServiceSAS.swift:10-11 | the memberwise initialiser defaults to `https` only and version `2024-11-04` |
| `Swazure.Validate` | Sources/Swazure/Swazure.swift:123-130 | validation fails only with `invalidPermissions` or `invalidExpiry` |
| `Swazure.ValidateOutcome` | Sources/Swazure/Swazure.swift:123-130 | `invalidPermissions` exactly when no bit 0 to 15 is set, whatever the expiry; otherwise `invalidExpiry` exactly when expiry is not after now; success exactly when a bit is set and expiry is at least now + 1 |
| `Swazure.CanonicalizedResourceDetermines` | Sources/Swazure/Swazure.swift:62 | the canonicalized resource keeps account, container and blob as given: when account and container hold no `/`, it determines all three |
| `Swazure.PartsLayout` | Sources/Swazure/Swazure.swift:64-81 | the sixteen fields in order: permissions, start or empty, expiry, resource path, identifier or empty, address range or empty, transport, version, resource code, two empty fields, the five response headers each or empty |
| `Swazure.PartsNewlineFree` | Sources/Swazure/Swazure.swift:64-81 | when the caller's strings and the formatted dates hold no newline, no field does |
| `Swazure.StringToSignReadsBack` | Sources/Swazure/Swazure.swift:64-88 | splitting the string-to-sign at newlines gives back the sixteen fields it was joined from |
| `Swazure.StringToSignFields` | Sources/Swazure/Swazure.swift:62-88 | when no caller string or formatted date holds a newline, the string-to-sign reads back as exactly sixteen fields, absent optionals as empty fields, fields 9 and 10 (counting from 0) empty, field 3 `"/blob/" + account + "/" + container + "/" + blob` |
| `Swazure.StringToSignCommits` | Sources/Swazure/Swazure.swift:64-88 | two newline-free calls that sign the same string agree on every field, hence on permissions, expiry, transport, version and resource kind |
| `Swazure.MandatoryFirst` | Sources/Swazure/Swazure.swift:94-101 | the first six names give `sv`, `sr`, `sp`, `se`, `spr`, `sig` with version, resource code, description, expiry, transport and signature |
| `Swazure.QueryItemsLayout` | Sources/Swazure/Swazure.swift:94-118 | the query starts with those six items, and its length is 6 plus the number of present optional values |
| `Swazure.QueryItemsLookup` | Sources/Swazure/Swazure.swift:94-118 | each of the fourteen names carries its own value exactly when that value is present; no other name appears |
| `Swazure.PresentLookupAt` | Sources/Swazure/Swazure.swift:103-117 | after the appends up to index n, the name of index i is found with its own value when i is below n and its value is present, and is absent otherwise |
| `Swazure.QueryItemsOrdered` | Sources/Swazure/Swazure.swift:94-118 | the items follow the order `sv sr sp se spr sig st sip si rscc rscd rsce rscl rsct`, so every name appears at most once |
| `Swazure.QueryCompleteness` | Sources/Swazure/Swazure.swift:94-118 | with every optional set, the query holds all fourteen names in that order, each with its value |
| `Swazure.AppendIfPresent` | Sources/Swazure/Swazure.swift:103-117 | one `if let` step: after it, the items are those of every name up to and including this one |
| `Swazure.AppendOptionalItems` | Sources/Swazure/Swazure.swift:103-118 | after the mandatory six, the optional appends yield exactly `QueryItems` |
| `Swazure.SignedQueryItems` | Sources/Swazure/Swazure.swift:61-121 | an undecodable key gives `invalidKey` and no items; otherwise the result is `QueryItems` with the base64 HMAC of the UTF-8 string-to-sign under the decoded key |
| `Swazure.SignedURLErrors` | Sources/Swazure/Swazure.swift:44-58 | each of the four errors happens exactly when every earlier step passes and its own fails, in the order validation, key, URL; a success is the URL built from `https`, `{account}.blob.core.windows.net`, `/{container}/{blob}` and the signed items |
| `Swazure.SignedURLFor` | Sources/Swazure/Swazure.swift:44-59 | filling a fresh `URLComponents` member by member gives `SignedURLOutcome` |
| `Swazure.SignedURL` | Sources/Swazure/Swazure.swift:22-42 | the public `signedURL` is the private one on a blob resource with the given start, no identifier or address range, https only and version 2024-11-04 |
| `Swazure.PublicQueryShape` | Sources/Swazure/Swazure.swift:30-40 | from the public entry point, `sr` is `b`, `sv` is `2024-11-04`, `spr` is `https`, `st` is the start; `sip` and `si` never appear |
| `Swazure.WorkedScenarioFields` | Sources/Swazure/Swazure.swift:62-81 | account1, container c, blob b.txt, read and write, no headers: the fields are `rw`, start, expiry, `/blob/account1/c/b.txt`, two empty fields, `https`, `2024-11-04`, `b` and seven empty fields |
| `Swazure.WorkedScenario` | Sources/Swazure/Swazure.swift:62-88 | that scenario's string-to-sign is those fields joined with newlines and reads back as exactly them |
| `Text.SplitJoin` | Sources/Swazure/Swazure.swift:88 | `joined(separator:)` of parts without the separator is undone by splitting at it |

## Left out

- HMAC-SHA256, base64 encoding and decoding, UTF-8 encoding and the ISO 8601 formatter come from swift-crypto and Foundation. They are arbitrary functions in `Primitives`, so nothing is said about their output. In particular, that a one-character change to the string-to-sign changes the signature is a property of HMAC and is not proved here.
- `URLComponents` is not part of this model: its host and path handling, its percent-encoding of the query, and the cases where `components.url` is `nil` are a partial function in `Primitives`. The signature therefore goes into the query as plain base64, as the code passes it. Whether `+`, `/` and `=` reach the wire escaped is decided by `URLComponents` and is not modelled.
- Foundation's `Date` is a floating-point count of seconds. Here it is an integer, which keeps the order comparison `expiry > now` and nothing else. The clock `Date()` is the parameter `now`.
- `Permission.rawValue` is Swift's 64-bit `Int`. Here it is a 64-bit bit-vector; bitwise union, intersection and `contains` are the same on both.
- `Swazure.StringToSignFields`: the sixteen-field read-back is proved only when no caller string and no formatted date holds a newline. A newline inside a field makes the joined string split into more fields. The string itself always has exactly sixteen parts, as `Swazure.PartsLayout` states without that requirement.
- `Swazure.WorkedScenario`: the expected string is stated as the join of its sixteen literal fields, not as one literal compared character by character. The formatted start and expiry are requirements on the formatter, since the formatter is a parameter.
- `SignedQueryItems` in the source builds the string-to-sign before decoding the key. The model does the same, but the order is not observable, because building the string cannot fail.
- `Package.swift` is a build manifest with no logic and is not part of this model.
