/**
 * The file-name helpers of utils/helpers.ts: extension, MIME type and a
 * time-stamped unique name. The clock is a parameter.
 */
module Helpers {
  import opened JsString

  /**
   * `getFileExtension`: split on '.', and if there was at least one '.',
   * the last piece lower-cased; otherwise the empty string.
   */
  function GetFileExtension(fileNameOrUri: string): (ext: string)
    ensures '.' !in fileNameOrUri ==> ext == ""
    ensures '.' in fileNameOrUri ==>
      ext == ToLower(fileNameOrUri[LastIndexOf(fileNameOrUri, '.') + 1..])
    ensures '.' !in ext
    ensures ToLower(ext) == ext
  {
    var parts := Split(fileNameOrUri, '.');
    if |parts| <= 1 then ""
    else
      var last := parts[|parts| - 1];
      ToLowerKeepsNonLetter(last, '.');
      ToLowerIdempotent(last);
      ToLower(last)
  }

  /** A name that ends with '.' has the empty extension. */
  lemma TrailingDotGivesEmptyExtension(name: string)
    requires name != [] && name[|name| - 1] == '.'
    ensures GetFileExtension(name) == ""
  {
  }

  const OctetStream: string := "application/octet-stream"

  /** The table of `getMimeType`, keyed by lower-case extension. */
  const MimeTypes: map<string, string> := map[
    "pdf" := "application/pdf",
    "jpg" := "image/jpeg",
    "jpeg" := "image/jpeg",
    "png" := "image/png",
    "gif" := "image/gif",
    "doc" := "application/msword",
    "docx" := "application/vnd.openxmlformats-officedocument.wordprocessingml.document",
    "xls" := "application/vnd.ms-excel",
    "xlsx" := "application/vnd.openxmlformats-officedocument.spreadsheetml.sheet",
    "txt" := "text/plain"
  ]

  /**
   * `getMimeType` as evidently intended: the table entry of the lower-cased
   * extension when the table has one, `application/octet-stream` otherwise.
   * (The code as written also finds keys inherited by every object; see
   * GetMimeTypeAsWritten.)
   */
  function GetMimeType(extension: string): (mime: string)
    ensures ToLower(extension) in MimeTypes ==> mime == MimeTypes[ToLower(extension)]
    ensures ToLower(extension) !in MimeTypes ==> mime == OctetStream
    ensures mime == OctetStream || mime in MimeTypes.Values
  {
    var key := ToLower(extension);
    if key in MimeTypes then MimeTypes[key] else OctetStream
  }

  /** The lookup does not depend on the letter case of the extension. */
  lemma MimeTypeIgnoresCase(extension: string)
    ensures GetMimeType(extension) == GetMimeType(ToLower(extension))
  {
    ToLowerIdempotent(extension);
  }

  /** A word of lower-case ASCII letters is its own lower-case form and holds no '.'. */
  lemma LowerWord(s: string)
    requires forall i :: 0 <= i < |s| ==> 'a' <= s[i] <= 'z'
    ensures ToLower(s) == s
    ensures '.' !in s
  {
  }

  /** The ten listed extensions, JPEG under both spellings. */
  lemma MimeTypeTable()
    ensures MimeTypes.Keys == {"pdf", "jpg", "jpeg", "png", "gif", "doc", "docx", "xls", "xlsx", "txt"}
  {
  }

  /** Both spellings of the JPEG extension give the same type. */
  lemma JpegSpellings()
    ensures GetMimeType("jpg") == GetMimeType("jpeg") == "image/jpeg"
  {
    LowerWord("jpg");
    LowerWord("jpeg");
  }

  /** The lookup of "JPG" in upper case finds the JPEG entry. */
  lemma MimeTypeOfUpperJpg()
    ensures GetMimeType("JPG") == "image/jpeg"
  {
    assert ToLower("JPG") == "jpg";
  }

  /** An extension of five or more characters is not in the table. */
  lemma LongExtensionIsOctetStream(extension: string)
    requires |extension| >= 5
    ensures GetMimeType(extension) == OctetStream
  {
    TableKeysAreShort();
  }

  /** What a property lookup on a plain JavaScript object can produce. */
  datatype JsValue =
    | Str(s: string)         // an own string property
    | Inherited(name: string) // a member every object inherits from Object.prototype

  /**
   * The members of Object.prototype that a lower-cased key can name, both of
   * them truthy. The others (`hasOwnProperty`, `toString`, `valueOf`,
   * `__defineGetter__`, ...) contain an upper-case letter, which `toLowerCase`
   * never leaves in a key.
   */
  const ObjectPrototypeMembers: set<string> := {"constructor", "__proto__"}

  /** Every key of the table has at most four characters. */
  lemma TableKeysAreShort()
    ensures forall k :: k in MimeTypes ==> |k| <= 4
  {
  }

  /** A lower-cased key never equals a name with an upper-case letter, such as `toString`. */
  lemma LowerKeyMissesCapitalisedName(extension: string, name: string, i: int)
    requires 0 <= i < |name| && 'A' <= name[i] <= 'Z'
    ensures ToLower(extension) != name
  {
    if |ToLower(extension)| == |name| {
      assert !('A' <= ToLower(extension)[i] <= 'Z');
    }
  }

  /** Both reachable inherited member names have at least seven characters. */
  lemma PrototypeMembersAreLong()
    ensures forall m :: m in ObjectPrototypeMembers ==> |m| >= 7
  {
  }

  /**
   * `getMimeType` as written: `types[key] || fallback` on an object literal
   * also finds the members inherited from Object.prototype, which are truthy,
   * so one of those is returned instead of the fallback. It departs from
   * GetMimeType exactly on those names.
   */
  function GetMimeTypeAsWritten(extension: string): (v: JsValue)
    ensures ToLower(extension) !in ObjectPrototypeMembers ==> v == Str(GetMimeType(extension))
    ensures ToLower(extension) in ObjectPrototypeMembers ==> v == Inherited(ToLower(extension))
  {
    var key := ToLower(extension);
    TableKeysAreShort();
    PrototypeMembersAreLong();
    if key in MimeTypes then Str(MimeTypes[key])
    else if key in ObjectPrototypeMembers then Inherited(key)
    else Str(OctetStream)
  }

  /** The extension "constructor" yields Object's constructor function, not a MIME type. */
  lemma ConstructorExtensionIsNotAMimeType()
    ensures GetMimeTypeAsWritten("constructor") == Inherited("constructor")
    ensures GetMimeType("constructor") == OctetStream
  {
    LowerWord("constructor");
  }

  /**
   * A file whose extension is, in lower case, the name of an inherited member
   * reaches that member through getFileExtension and getMimeType.
   */
  lemma InheritedMemberFileName(prefix: string, member: string)
    requires member in ObjectPrototypeMembers && '.' !in member && ToLower(member) == member
    ensures GetFileExtension(prefix + "." + member) == member
    ensures GetMimeTypeAsWritten(GetFileExtension(prefix + "." + member)) == Inherited(member)
  {
    ExtensionAfterLastDot(prefix, member);
  }

  /** The number a run of decimal digits spells, most significant digit first. */
  function DigitsValue(r: string): nat
    requires forall i :: 0 <= i < |r| ==> '0' <= r[i] <= '9'
  {
    if r == [] then 0
    else DigitsValue(r[..|r| - 1]) * 10 + (r[|r| - 1] as int - '0' as int)
  }

  /**
   * `${n}` for a whole number: its decimal digits, which spell `n`, with no
   * leading zero unless `n` is 0.
   */
  function DecimalString(n: nat): (r: string)
    ensures r != []
    ensures forall i :: 0 <= i < |r| ==> '0' <= r[i] <= '9'
    ensures DigitsValue(r) == n
    ensures r[0] != '0' || r == "0"
  {
    var d := ['0' + (n % 10) as char];
    if n < 10 then d
    else
      var r := DecimalString(n / 10) + d;
      assert r[..|r| - 1] == DecimalString(n / 10);
      r
  }

  /** Different timestamps print differently. */
  lemma DecimalStringInjective(m: nat, n: nat)
    requires DecimalString(m) == DecimalString(n)
    ensures m == n
  {
  }

  /**
   * `createUniqueFileName` with the clock reading `timestamp` (milliseconds)
   * as a parameter: `${baseName}_${timestamp}.${extension}`, where the base is
   * `substring(0, lastIndexOf('.'))`. Without a '.', `lastIndexOf` is -1 and
   * the base is empty.
   */
  function CreateUniqueFileName(originalName: string, timestamp: nat): (name: string)
    ensures '.' in originalName ==>
      var dot := LastIndexOf(originalName, '.');
      name == originalName[..dot] + "_" + DecimalString(timestamp) + "." + ToLower(originalName[dot + 1..])
    ensures '.' !in originalName ==> name == "_" + DecimalString(timestamp) + "."
  {
    var extension := GetFileExtension(originalName);
    var baseName := Substring(originalName, 0, LastIndexOf(originalName, '.'));
    baseName + "_" + DecimalString(timestamp) + "." + extension
  }

  /** Two names that differ only in a middle part differ in that part. */
  lemma MiddleCancels(p: string, x: string, y: string, e: string)
    requires p + x + "." + e == p + y + "." + e
    ensures x == y
  {
    var l := p + x + "." + e;
    assert |x| == |y|;
    assert x == l[|p|..|p| + |x|];
    assert y == (p + y + "." + e)[|p|..|p| + |y|];
  }

  /** Two unique names made from the same file at different times differ. */
  lemma UniqueNamesDifferInTime(originalName: string, t1: nat, t2: nat)
    requires t1 != t2
    ensures CreateUniqueFileName(originalName, t1) != CreateUniqueFileName(originalName, t2)
  {
    var p := Substring(originalName, 0, LastIndexOf(originalName, '.')) + "_";
    var e := GetFileExtension(originalName);
    if CreateUniqueFileName(originalName, t1) == CreateUniqueFileName(originalName, t2) {
      MiddleCancels(p, DecimalString(t1), DecimalString(t2), e);
      DecimalStringInjective(t1, t2);
    }
  }

  /** When nothing after a '.' is a '.', the extension is what follows that '.'. */
  lemma ExtensionAfterLastDot(prefix: string, suffix: string)
    requires '.' !in suffix
    ensures GetFileExtension(prefix + "." + suffix) == ToLower(suffix)
  {
    var name := prefix + "." + suffix;
    assert name[|prefix|] == '.';
    assert name[|prefix| + 1..] == suffix;
    assert LastIndexOf(name, '.') == |prefix|;
  }

  /** The unique name keeps the extension of the original (a round trip through getFileExtension). */
  lemma UniqueNameKeepsExtension(originalName: string, timestamp: nat)
    ensures GetFileExtension(CreateUniqueFileName(originalName, timestamp)) == GetFileExtension(originalName)
  {
    var ext := GetFileExtension(originalName);
    var base := Substring(originalName, 0, LastIndexOf(originalName, '.'));
    var stamp := DecimalString(timestamp);
    assert '.' !in stamp;
    ExtensionAfterLastDot(base + "_" + stamp, ext);
  }

  /** The base keeps its letter case; only the extension is lower-cased. */
  lemma UniqueNameKeepsBaseCase(originalName: string, timestamp: nat)
    requires '.' in originalName
    ensures var dot := LastIndexOf(originalName, '.');
      CreateUniqueFileName(originalName, timestamp)[..dot] == originalName[..dot]
  {
  }

  /**
   * `createUniqueFileName` as evidently intended: a name without '.' keeps
   * itself as the base and gets no trailing '.'.
   */
  function CreateUniqueFileNameKeepingBase(originalName: string, timestamp: nat): (name: string)
    ensures '.' in originalName ==> name == CreateUniqueFileName(originalName, timestamp)
    ensures '.' !in originalName ==> name == originalName + "_" + DecimalString(timestamp)
    ensures var base := if '.' in originalName then originalName[..LastIndexOf(originalName, '.')] else originalName;
      |base| <= |name| && name[..|base|] == base
  {
    if '.' in originalName then CreateUniqueFileName(originalName, timestamp)
    else originalName + "_" + DecimalString(timestamp)
  }

  /** As written, a name without '.' loses its whole base: "README" becomes "_42.". */
  lemma DotlessNameLosesBase()
    ensures CreateUniqueFileName("README", 42) == "_42."
    ensures CreateUniqueFileNameKeepingBase("README", 42) == "README_42"
  {
    assert DecimalString(42) == "42";
    assert '.' !in "README";
  }
}
