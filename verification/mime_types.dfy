/**
 * The static helper `getMimeTypeForUri` of the handover class: the content
 * type of a resource is found by looking at the scheme of its URI.
 * The platform lookups it calls are not modelled; they are the fields of a
 * `Resolver`, any total functions of the right shape.
 */
module MimeTypes {
  import opened Wrappers

  /** A resource locator: its scheme (absent for a relative URI) and its path. */
  datatype Uri = Uri(scheme: Option<string>, path: string)

  /** The platform lookups, left uninterpreted. */
  datatype Resolver = Resolver(
    /** ContentResolver.getType */
    contentType: Uri -> Option<string>,
    /** MimeTypeMap.getFileExtensionFromUrl */
    extensionFromUrl: string -> string,
    /** MimeTypeMap.getMimeTypeFromExtension */
    mimeFromExtension: string -> Option<string>)

  const SchemeContent: string := "content"
  const SchemeFile: string := "file"

  predicate IsUpper(c: char) {
    'A' <= c <= 'Z'
  }

  /** Lower-cases one ASCII letter; every other character is left alone. */
  function LowerChar(c: char): (r: char)
    ensures !IsUpper(r)
    ensures IsUpper(c) ==> r as int == c as int + 32
    ensures !IsUpper(c) ==> r == c
  {
    if IsUpper(c) then (c as int + 32) as char else c
  }

  /** String.toLowerCase, restricted to ASCII letters. */
  function ToLower(s: string): (r: string)
    ensures |r| == |s|
    ensures forall i :: 0 <= i < |s| ==> r[i] == LowerChar(s[i])
  {
    if s == [] then [] else [LowerChar(s[0])] + ToLower(s[1..])
  }

  /** Lower-casing twice is lower-casing once. */
  lemma ToLowerIdempotent(s: string)
    ensures ToLower(ToLower(s)) == ToLower(s)
  {
  }

  /** Two strings that agree up to the case of ASCII letters lower-case to the same string. */
  lemma ToLowerIgnoresCase(s: string, t: string)
    requires |s| == |t|
    requires forall i :: 0 <= i < |s| ==> LowerChar(s[i]) == LowerChar(t[i])
    ensures ToLower(s) == ToLower(t)
  {
  }

  /** The content type of `uri`, or None when it cannot be determined. */
  function MimeTypeForUri(res: Resolver, uri: Uri): (r: Option<string>)
    ensures uri.scheme.None? ==> r.None?
    ensures uri.scheme == Some(SchemeContent) ==> r == res.contentType(uri)
    ensures uri.scheme == Some(SchemeFile) ==>
              r == res.mimeFromExtension(ToLower(res.extensionFromUrl(uri.path)))
  {
    match uri.scheme
    case None => None
    case Some(scheme) =>
      if scheme == SchemeContent then res.contentType(uri)
      else if scheme == SchemeFile then
        // the null check after toLowerCase() in the source can never fail
        res.mimeFromExtension(ToLower(res.extensionFromUrl(uri.path)))
      else None
  }

  /** Only the `content` and `file` schemes can ever yield a type. */
  lemma MimeTypeOnlyForKnownSchemes(res: Resolver, uri: Uri)
    requires MimeTypeForUri(res, uri).Some?
    ensures uri.scheme == Some(SchemeContent) || uri.scheme == Some(SchemeFile)
  {
  }

  /**
   * For file URIs the type depends on the path only through the extension,
   * and not on the case of its letters.
   */
  lemma FileMimeTypeIgnoresExtensionCase(res: Resolver, u: Uri, v: Uri)
    requires u.scheme == Some(SchemeFile) && v.scheme == Some(SchemeFile)
    requires |res.extensionFromUrl(u.path)| == |res.extensionFromUrl(v.path)|
    requires forall i :: 0 <= i < |res.extensionFromUrl(u.path)| ==>
               LowerChar(res.extensionFromUrl(u.path)[i]) == LowerChar(res.extensionFromUrl(v.path)[i])
    ensures MimeTypeForUri(res, u) == MimeTypeForUri(res, v)
  {
    ToLowerIgnoresCase(res.extensionFromUrl(u.path), res.extensionFromUrl(v.path));
  }
}
