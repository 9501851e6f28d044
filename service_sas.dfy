/**
 * The value types of a service shared access signature: the permission flag
 * set and its letter string, the closed vocabularies of resource kinds,
 * transports and service versions, the response-header overrides, and the
 * parameters of one signing call.
 */
module ServiceSAS {
  import opened Wrappers
  import opened Text

  /** A point in time, in whole seconds; only its order and its formatted form are used. */
  type Date = int

  // ---------------------------------------------------------------------------
  // Resource kinds

  datatype Resource = Blob | Container | File | Queue | Table

  function ResourceRawValue(r: Resource): string
  {
    match r
    case Blob => "b"
    case Container => "c"
    case File => "f"
    case Queue => "q"
    case Table => "t"
  }

  /** The failable `init(rawValue:)` every string-backed enumeration has. */
  function ResourceFromRawValue(s: string): (r: Option<Resource>)
    ensures r.Some? ==> ResourceRawValue(r.value) == s
  {
    if s == "b" then Some(Blob)
    else if s == "c" then Some(Container)
    else if s == "f" then Some(File)
    else if s == "q" then Some(Queue)
    else if s == "t" then Some(Table)
    else None
  }

  /** Every resource code reads back as its resource, so no two kinds share a code. */
  lemma ResourceRoundTrip(r: Resource)
    ensures ResourceFromRawValue(ResourceRawValue(r)) == Some(r)
    ensures |ResourceRawValue(r)| == 1
  {
  }

  lemma ResourceCodesDistinct(a: Resource, b: Resource)
    requires ResourceRawValue(a) == ResourceRawValue(b)
    ensures a == b
  {
    ResourceRoundTrip(a);
    ResourceRoundTrip(b);
  }

  // ---------------------------------------------------------------------------
  // Transport

  datatype HTTPProtocol = HttpsOnly | HttpsAndHttp

  function HTTPProtocolRawValue(p: HTTPProtocol): string
  {
    match p
    case HttpsOnly => "https"
    case HttpsAndHttp => "https,http"
  }

  function HTTPProtocolFromRawValue(s: string): (p: Option<HTTPProtocol>)
    ensures p.Some? ==> HTTPProtocolRawValue(p.value) == s
  {
    if s == "https" then Some(HttpsOnly)
    else if s == "https,http" then Some(HttpsAndHttp)
    else None
  }

  lemma HTTPProtocolRoundTrip(p: HTTPProtocol)
    ensures HTTPProtocolFromRawValue(HTTPProtocolRawValue(p)) == Some(p)
  {
  }

  // ---------------------------------------------------------------------------
  // Service versions

  datatype Version = V2025_01_05 | V2024_11_04 | V2022_11_02 | V2020_04_08 | V2018_03_28

  function VersionRawValue(v: Version): string
  {
    match v
    case V2025_01_05 => "2025-01-05"
    case V2024_11_04 => "2024-11-04"
    case V2022_11_02 => "2022-11-02"
    case V2020_04_08 => "2020-04-08"
    case V2018_03_28 => "2018-03-28"
  }

  function VersionFromRawValue(s: string): (v: Option<Version>)
    ensures v.Some? ==> VersionRawValue(v.value) == s
  {
    if s == "2025-01-05" then Some(V2025_01_05)
    else if s == "2024-11-04" then Some(V2024_11_04)
    else if s == "2022-11-02" then Some(V2022_11_02)
    else if s == "2020-04-08" then Some(V2020_04_08)
    else if s == "2018-03-28" then Some(V2018_03_28)
    else None
  }

  predicate IsDigit(c: char) { '0' <= c <= '9' }

  /** A calendar date written `yyyy-MM-dd`. */
  predicate IsDateString(s: string)
  {
    |s| == 10 && s[4] == '-' && s[7] == '-' &&
    forall i :: 0 <= i < 10 && i != 4 && i != 7 ==> IsDigit(s[i])
  }

  /** Each version reads back as itself, so the five raw values are distinct, and each is a date. */
  lemma VersionRoundTrip(v: Version)
    ensures VersionFromRawValue(VersionRawValue(v)) == Some(v)
    ensures IsDateString(VersionRawValue(v))
  {
  }

  // ---------------------------------------------------------------------------
  // Permissions

  /** An option set over Swift's 64-bit `Int`; only bits 0 to 15 name capabilities. */
  datatype Permission = Permission(rawValue: bv64)

  const Read := Permission(1 << 0)
  const Write := Permission(1 << 1)
  const Delete := Permission(1 << 2)
  const List := Permission(1 << 3)
  const Add := Permission(1 << 4)
  const Create := Permission(1 << 5)
  const Update := Permission(1 << 6)
  const Process := Permission(1 << 7)
  const DeleteVersion := Permission(1 << 8)
  const PermanentDelete := Permission(1 << 9)
  const Tags := Permission(1 << 10)
  const Move := Permission(1 << 11)
  const Execute := Permission(1 << 12)
  const Ownership := Permission(1 << 13)
  const PermissionManagement := Permission(1 << 14)
  const ImmutabilityPolicy := Permission(1 << 15)

  /** The option set holding no flag. */
  const NoPermissions := Permission(0)

  function Union(a: Permission, b: Permission): Permission
  {
    Permission(a.rawValue | b.rawValue)
  }

  function Intersection(a: Permission, b: Permission): Permission
  {
    Permission(a.rawValue & b.rawValue)
  }

  /** `OptionSet.contains`: every bit of `member` is set in `p`. */
  predicate Contains(p: Permission, member: Permission)
  {
    p.rawValue & member.rawValue == member.rawValue
  }

  /** The flag table `description` walks, in its hand-written order. */
  const FlagTable: seq<(Permission, string)> := [
    (Read, "r"), (Write, "w"), (Delete, "d"), (List, "l"),
    (Add, "a"), (Create, "c"), (Update, "u"), (Process, "p"),
    (DeleteVersion, "x"), (PermanentDelete, "y"), (Tags, "t"),
    (Move, "m"), (Execute, "e"), (Ownership, "o"),
    (PermissionManagement, "p"), (ImmutabilityPolicy, "i")
  ]

  /** The letter order the wire format fixes: one letter per capability, bit 0 first. */
  const CanonicalOrder: string := "rwdlacupxytmeopi"

  /** `compactMap`: the letter of each table entry whose flag `p` contains, in table order. */
  function CompactMap(entries: seq<(Permission, string)>, p: Permission): seq<string>
  {
    if entries == [] then []
    else (if Contains(p, entries[0].0) then [entries[0].1] else []) + CompactMap(entries[1..], p)
  }

  /** `Permission.description`: the compacted letters joined with no separator. */
  function Description(p: Permission): string
  {
    Join(CompactMap(FlagTable, p), "")
  }

  // ---------------------------------------------------------------------------
  // The reference view of a permission: which of bits 0 to 15 are set

  function Bit(i: nat): bv64
    requires i < 16
  {
    (1 as bv64) << i
  }

  /** Bit `i` is one of the sixteen capability bits and is set in `p`. */
  predicate Has(p: Permission, i: nat)
  {
    i < 16 && p.rawValue & Bit(i) != 0
  }

  /** The set bits among `k` to 15, ascending. */
  function SetBitsFrom(p: Permission, k: nat): seq<nat>
    requires k <= 16
    decreases 16 - k
  {
    if k == 16 then []
    else (if Has(p, k) then [k] else []) + SetBitsFrom(p, k + 1)
  }

  function SetBits(p: Permission): seq<nat>
  {
    SetBitsFrom(p, 0)
  }

  /** The number of capabilities `p` holds. */
  function FlagCount(p: Permission): nat
  {
    |set i: nat | 0 <= i < 16 && Has(p, i)|
  }

  /** Entry `i` of the flag table is bit `i` with the `i`-th canonical letter. */
  lemma FlagTableAt(i: nat)
    requires i < 16
    ensures |FlagTable| == 16 && |CanonicalOrder| == 16
    ensures FlagTable[i].0 == Permission(Bit(i)) && FlagTable[i].1 == [CanonicalOrder[i]]
  {
  }

  lemma ContainsFlag(p: Permission, i: nat)
    requires i < 16
    ensures Contains(p, Permission(Bit(i))) <==> Has(p, i)
  {
  }

  lemma {:induction false} SetBitsFromRange(p: Permission, k: nat)
    requires k <= 16
    ensures forall j :: 0 <= j < |SetBitsFrom(p, k)| ==> k <= SetBitsFrom(p, k)[j] < 16
    decreases 16 - k
  {
    if k < 16 {
      SetBitsFromRange(p, k + 1);
    }
  }

  lemma {:induction false} SetBitsFromSpec(p: Permission, k: nat)
    requires k <= 16
    ensures forall j :: 0 <= j < |SetBitsFrom(p, k)| ==> k <= SetBitsFrom(p, k)[j] < 16
    ensures forall a, b :: 0 <= a < b < |SetBitsFrom(p, k)| ==> SetBitsFrom(p, k)[a] < SetBitsFrom(p, k)[b]
    ensures forall i: nat :: i in SetBitsFrom(p, k) <==> k <= i < 16 && Has(p, i)
    decreases 16 - k
  {
    if k < 16 {
      SetBitsFromSpec(p, k + 1);
    }
  }

  /** SetBits lists exactly the set bits, each once, in ascending order. */
  lemma SetBitsSpec(p: Permission)
    ensures forall j :: 0 <= j < |SetBits(p)| ==> SetBits(p)[j] < 16
    ensures forall a, b :: 0 <= a < b < |SetBits(p)| ==> SetBits(p)[a] < SetBits(p)[b]
    ensures forall i: nat :: i in SetBits(p) <==> i < 16 && Has(p, i)
  {
    SetBitsFromSpec(p, 0);
  }

  /** `entries` is the flag table from entry `k` on: bit `k + i` with its canonical letter at index `i`. */
  predicate TableFrom(entries: seq<(Permission, string)>, k: nat)
  {
    k + |entries| == 16 &&
    forall i :: 0 <= i < |entries| ==> entries[i].0 == Permission(Bit(k + i)) && entries[i].1 == [CanonicalOrder[k + i]]
  }

  lemma FlagTableShape()
    ensures TableFrom(FlagTable, 0)
  {
    forall i | 0 <= i < 16
      ensures FlagTable[i].0 == Permission(Bit(i)) && FlagTable[i].1 == [CanonicalOrder[i]]
    {
      FlagTableAt(i);
    }
  }

  /** The canonical letter of each set bit from `k` to 15, in ascending order. */
  function LettersFrom(p: Permission, k: nat): seq<string>
    requires k <= 16
    decreases 16 - k
  {
    if k == 16 then []
    else (if Has(p, k) then [[CanonicalOrder[k]]] else []) + LettersFrom(p, k + 1)
  }

  /** Walking the table from entry `k` on keeps the letters of the set bits from `k` on. */
  lemma {:induction false} CompactMapFrom(entries: seq<(Permission, string)>, p: Permission, k: nat)
    requires TableFrom(entries, k)
    ensures CompactMap(entries, p) == LettersFrom(p, k)
    decreases |entries|
  {
    if entries != [] {
      ContainsFlag(p, k);
      assert TableFrom(entries[1..], k + 1) by {
        forall i | 0 <= i < |entries[1..]|
          ensures entries[1..][i].0 == Permission(Bit(k + 1 + i)) && entries[1..][i].1 == [CanonicalOrder[k + 1 + i]]
        {
          assert entries[1..][i] == entries[i + 1];
        }
      }
      CompactMapFrom(entries[1..], p, k + 1);
    }
  }

  /** The letters from `k` on are, one for one, the canonical letters of the set bits from `k` on. */
  lemma {:induction false} LettersFromSpell(p: Permission, k: nat)
    requires k <= 16
    ensures |LettersFrom(p, k)| == |SetBitsFrom(p, k)|
    ensures forall j :: 0 <= j < |SetBitsFrom(p, k)| ==>
      SetBitsFrom(p, k)[j] < 16 && LettersFrom(p, k)[j] == [CanonicalOrder[SetBitsFrom(p, k)[j]]]
    decreases 16 - k
  {
    SetBitsFromRange(p, k);
    if k < 16 {
      LettersFromSpell(p, k + 1);
    }
  }

  /**
   * The description spells, in ascending bit order, the canonical letter of
   * every set bit among 0 to 15 and nothing else: its order comes from the
   * table, not from how the set was built.
   */
  lemma DescriptionSpellsSetBits(p: Permission)
    ensures |Description(p)| == |SetBits(p)|
    ensures forall j :: 0 <= j < |SetBits(p)| ==>
      SetBits(p)[j] < 16 && Description(p)[j] == CanonicalOrder[SetBits(p)[j]]
  {
    FlagTableShape();
    CompactMapFrom(FlagTable, p, 0);
    LettersFromSpell(p, 0);
    JoinSingletons(CompactMap(FlagTable, p));
  }

  /** Every letter of a description is a canonical letter, so it never holds a newline. */
  lemma DescriptionLetters(p: Permission)
    ensures forall j :: 0 <= j < |Description(p)| ==> Description(p)[j] in CanonicalOrder
    ensures '\n' !in Description(p)
  {
    DescriptionSpellsSetBits(p);
    var d := Description(p);
    forall j | 0 <= j < |d| ensures d[j] in CanonicalOrder {
      assert d[j] == CanonicalOrder[SetBits(p)[j]];
    }
    assert '\n' !in CanonicalOrder;
  }

  /** The indices from `k` to 15 that satisfy `f`, counted one by one. */
  function CountFrom(f: nat -> bool, k: nat): nat
    requires k <= 16
    decreases 16 - k
  {
    if k == 16 then 0 else (if f(k) then 1 else 0) + CountFrom(f, k + 1)
  }

  lemma {:induction false} CountFromCard(f: nat -> bool, k: nat)
    requires k <= 16
    ensures |set i: nat | k <= i < 16 && f(i)| == CountFrom(f, k)
    decreases 16 - k
  {
    var all := set i: nat | k <= i < 16 && f(i);
    if k == 16 {
      assert all == {};
    } else {
      CountFromCard(f, k + 1);
      var later := set i: nat | k + 1 <= i < 16 && f(i);
      if f(k) {
        assert all == {k} + later;
      } else {
        assert all == later;
      }
    }
  }

  lemma {:induction false} SetBitsFromCountFrom(p: Permission, k: nat)
    requires k <= 16
    ensures |SetBitsFrom(p, k)| == CountFrom((i: nat) => Has(p, i), k)
    decreases 16 - k
  {
    if k < 16 {
      SetBitsFromCountFrom(p, k + 1);
    }
  }

  lemma SetBitsFromCount(p: Permission, k: nat)
    requires k <= 16
    ensures |SetBitsFrom(p, k)| == |set i: nat | k <= i < 16 && Has(p, i)|
  {
    var f := (i: nat) => Has(p, i);
    SetBitsFromCountFrom(p, k);
    CountFromCard(f, k);
    assert (set i: nat | k <= i < 16 && f(i)) == (set i: nat | k <= i < 16 && Has(p, i));
  }

  /** Read and write together describe as "rw". */
  lemma DescriptionReadWrite()
    ensures Description(Union(Read, Write)) == "rw"
  {
    var p := Union(Read, Write);
    assert p == Permission(3);
    assert Has(p, 0) && Has(p, 1);
    assert !Has(p, 2) && !Has(p, 3) && !Has(p, 4) && !Has(p, 5) && !Has(p, 6) && !Has(p, 7);
    assert !Has(p, 8) && !Has(p, 9) && !Has(p, 10) && !Has(p, 11) && !Has(p, 12) && !Has(p, 13);
    assert !Has(p, 14) && !Has(p, 15);
    NoLettersFrom(p, 2);
    FlagTableShape();
    CompactMapFrom(FlagTable, p, 0);
    assert LettersFrom(p, 1) == ["w"];
    var letters := ["r", "w"];
    assert LettersFrom(p, 0) == letters;
    assert letters[1..] == ["w"];
    assert Join(letters, "") == "r" + "" + "w";
    assert "r" + "" + "w" == "rw";
  }

  lemma {:induction false} NoLettersFrom(p: Permission, k: nat)
    requires k <= 16
    requires forall i :: k <= i < 16 ==> !Has(p, i)
    ensures LettersFrom(p, k) == []
    decreases 16 - k
  {
    if k < 16 {
      NoLettersFrom(p, k + 1);
    }
  }

  /** The description has one letter per capability held, so at most sixteen. */
  lemma DescriptionLength(p: Permission)
    ensures |Description(p)| == FlagCount(p)
    ensures |Description(p)| <= 16
  {
    DescriptionSpellsSetBits(p);
    SetBitsFromCount(p, 0);
    SetBitsFromBound(p, 0);
  }

  lemma {:induction false} SetBitsFromBound(p: Permission, k: nat)
    requires k <= 16
    ensures |SetBitsFrom(p, k)| <= 16 - k
    decreases 16 - k
  {
    if k < 16 {
      SetBitsFromBound(p, k + 1);
    }
  }

  /** The low sixteen bits are the union of the sixteen single-bit masks. */
  lemma LowBitsSplit(x: bv64)
    ensures x & 0xFFFF == (x & Bit(0)) | (x & Bit(1)) | (x & Bit(2)) | (x & Bit(3))
                       | (x & Bit(4)) | (x & Bit(5)) | (x & Bit(6)) | (x & Bit(7))
                       | (x & Bit(8)) | (x & Bit(9)) | (x & Bit(10)) | (x & Bit(11))
                       | (x & Bit(12)) | (x & Bit(13)) | (x & Bit(14)) | (x & Bit(15))
  {
  }

  /** No bit from 0 to 15 set means nothing in the low sixteen bits. */
  lemma NoFlagMeansLowBitsClear(p: Permission)
    requires forall i :: 0 <= i < 16 ==> !Has(p, i)
    ensures p.rawValue & 0xFFFF == 0
  {
    assert !Has(p, 0) && !Has(p, 1) && !Has(p, 2) && !Has(p, 3);
    assert !Has(p, 4) && !Has(p, 5) && !Has(p, 6) && !Has(p, 7);
    assert !Has(p, 8) && !Has(p, 9) && !Has(p, 10) && !Has(p, 11);
    assert !Has(p, 12) && !Has(p, 13) && !Has(p, 14) && !Has(p, 15);
    LowBitsSplit(p.rawValue);
  }

  lemma FlagMeansLowBitsSet(p: Permission, i: nat)
    requires i < 16 && Has(p, i)
    ensures p.rawValue & 0xFFFF != 0
  {
  }

  /** The description is empty exactly when none of bits 0 to 15 is set; higher bits do not count. */
  lemma DescriptionEmptyIff(p: Permission)
    ensures Description(p) == "" <==> p.rawValue & 0xFFFF == 0
  {
    DescriptionSpellsSetBits(p);
    SetBitsSpec(p);
    if |SetBits(p)| > 0 {
      assert SetBits(p)[0] in SetBits(p);
      FlagMeansLowBitsSet(p, SetBits(p)[0]);
    } else {
      NoFlagMeansLowBitsClear(p);
    }
  }

  /** Two sets holding the same capabilities among bits 0 to 15 describe alike. */
  lemma {:induction false} SameFlagsSameLetters(p: Permission, q: Permission, k: nat)
    requires k <= 16
    requires forall i :: k <= i < 16 ==> (Has(p, i) <==> Has(q, i))
    ensures LettersFrom(p, k) == LettersFrom(q, k)
    decreases 16 - k
  {
    if k < 16 {
      SameFlagsSameLetters(p, q, k + 1);
    }
  }

  /** The description depends only on which of bits 0 to 15 are set. */
  lemma DescriptionDependsOnFlagsOnly(p: Permission, q: Permission)
    requires forall i :: 0 <= i < 16 ==> (Has(p, i) <==> Has(q, i))
    ensures Description(p) == Description(q)
  {
    FlagTableShape();
    CompactMapFrom(FlagTable, p, 0);
    CompactMapFrom(FlagTable, q, 0);
    SameFlagsSameLetters(p, q, 0);
  }

  /** Bits above 15 are ignored. */
  lemma DescriptionIgnoresHighBits(p: Permission)
    ensures Description(p) == Description(Permission(p.rawValue & 0xFFFF))
  {
    var q := Permission(p.rawValue & 0xFFFF);
    forall i | 0 <= i < 16 ensures Has(p, i) <==> Has(q, i) {
    }
    DescriptionDependsOnFlagsOnly(p, q);
  }

  /** Forming a union in any order gives the same description. */
  lemma DescriptionUnionOrder(a: Permission, b: Permission, c: Permission)
    ensures Description(Union(a, b)) == Description(Union(b, a))
    ensures Description(Union(Union(a, b), c)) == Description(Union(a, Union(b, c)))
  {
    UnionCommutes(a, b);
    UnionAssociates(a, b, c);
  }

  lemma UnionCommutes(a: Permission, b: Permission)
    ensures Union(a, b) == Union(b, a)
  {
  }

  lemma UnionAssociates(a: Permission, b: Permission, c: Permission)
    ensures Union(Union(a, b), c) == Union(a, Union(b, c))
  {
  }

  /** The single-bit mask at `i` has bit `j` set exactly when `j` is `i`. */
  lemma BitHas(i: nat, j: nat)
    requires i < 16 && j < 16
    ensures Has(Permission(Bit(i)), j) <==> i == j
  {
  }

  /** A set holding the one flag at bit `i` describes as that bit's canonical letter. */
  lemma DescriptionSingleFlag(i: nat)
    requires i < 16
    ensures Description(Permission(Bit(i))) == [CanonicalOrder[i]]
  {
    var p := Permission(Bit(i));
    var bits := SetBits(p);
    SetBitsSpec(p);
    BitHas(i, i);
    assert i in bits;
    if |bits| > 1 {
      BitHas(i, bits[0]);
      BitHas(i, bits[1]);
      assert false;
    }
    assert |bits| == 1;
    BitHas(i, bits[0]);
    assert bits[0] in bits;
    DescriptionSpellsSetBits(p);
  }

  /**
   * `process` and `permissionManagement` are different flags that both
   * describe as "p": the description does not determine the set.
   */
  lemma ProcessAliasesPermissionManagement()
    ensures Process != PermissionManagement
    ensures Description(Process) == Description(PermissionManagement) == "p"
  {
    DescriptionSingleFlag(7);
    DescriptionSingleFlag(14);
  }

  /** A nonempty description with "p" in it cannot tell which of the two flags was granted. */
  lemma DescriptionNotInjective()
    ensures exists a: Permission, b: Permission :: a != b && Description(a) == Description(b)
  {
    ProcessAliasesPermissionManagement();
  }

  // ---------------------------------------------------------------------------
  // Response headers and the parameters of one signing call

  datatype ResponseHeaders = ResponseHeaders(
    cacheControl: Option<string>,
    contentDisposition: Option<string>,
    contentEncoding: Option<string>,
    contentLanguage: Option<string>,
    contentType: Option<string>)

  const NoResponseHeaders := ResponseHeaders(None, None, None, None, None)

  /**
   * Optional chaining through an absent header struct: `headers?.field` is
   * absent exactly when either the struct or the field is.
   */
  function HeadersOrNone(h: Option<ResponseHeaders>): (r: ResponseHeaders)
    ensures h.None? ==> r == NoResponseHeaders
  {
    if h.Some? then h.value else NoResponseHeaders
  }

  /** The `ServiceSAS` struct, with its two defaulted members. */
  datatype Parameters = Parameters(
    permissions: Permission,
    resource: Resource,
    start: Option<Date>,
    expiry: Date,
    identifier: Option<string>,
    ipRange: Option<string>,
    protocolType: HTTPProtocol := HttpsOnly,
    version: Version := V2024_11_04,
    responseHeaders: Option<ResponseHeaders> := None)

  /** The memberwise initialiser leaves the transport at https only and the version at 2024-11-04. */
  lemma ParametersDefaults(permissions: Permission, resource: Resource, start: Option<Date>,
                           expiry: Date, identifier: Option<string>, ipRange: Option<string>)
    ensures Parameters(permissions, resource, start, expiry, identifier, ipRange).protocolType == HttpsOnly
    ensures Parameters(permissions, resource, start, expiry, identifier, ipRange).version == V2024_11_04
    ensures HTTPProtocolRawValue(HttpsOnly) == "https"
    ensures VersionRawValue(V2024_11_04) == "2024-11-04"
  {
  }
}
