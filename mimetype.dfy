/**
 * Content-type classification for uploaded files (`get_mimetype`): the
 * system's guess first, then a small table of overrides keyed by the
 * lower-cased extension, then the generic binary type.
 */
module Mimetype {
  import opened Base
  import opened Text

  /** Overrides for types the system table commonly gets wrong or lacks. */
  const MimetypeMap: map<string, string> := map[
    ".js" := "application/javascript",
    ".mov" := "video/quicktime",
    ".mp4" := "video/mp4",
    ".m4v" := "video/x-m4v",
    ".3gp" := "video/3gpp",
    ".woff" := "application/font-woff",
    ".woff2" := "font/woff2",
    ".eot" := "application/vnd.ms-fontobject",
    ".ttf" := "application/x-font-truetype",
    ".otf" := "application/x-font-opentype",
    ".svg" := "image/svg+xml"
  ]

  const MimetypeDefault: string := "application/octet-stream"

  /**
   * The content type of `filename`. `guess` stands for the system's
   * `mimetypes.guess_type`, which this model does not interpret; an empty
   * guess is falsy in the source and falls through like no guess.
   */
  function GetMimetype(guess: string -> Option<string>, filename: string): (r: string)
    ensures r != ""
    ensures guess(filename).Some? && guess(filename).value != "" ==> r == guess(filename).value
    ensures !(guess(filename).Some? && guess(filename).value != "") ==>
      r == if Lower(Extension(filename)) in MimetypeMap then MimetypeMap[Lower(Extension(filename))]
           else MimetypeDefault
  {
    var system := guess(filename);
    if system.Some? && system.value != "" then system.value
    else
      var ext := Lower(Extension(filename));
      TableTypesNonEmpty();
      if ext in MimetypeMap then MimetypeMap[ext] else MimetypeDefault
  }

  /** Every content type in the table is a real, non-empty type. */
  lemma TableTypesNonEmpty()
    ensures forall ext :: ext in MimetypeMap ==> MimetypeMap[ext] != ""
  {
  }

  /**
   * Without a system guess, two names whose extensions differ only in
   * letter case get the same content type.
   */
  lemma ExtensionCaseIgnored(guess: string -> Option<string>, f: string, g: string)
    requires guess(f).None? && guess(g).None?
    requires Lower(Extension(f)) == Lower(Extension(g))
    ensures GetMimetype(guess, f) == GetMimetype(guess, g)
  {
  }

  /** Without a system guess or a known extension, the type is the binary default. */
  lemma UnknownIsOctetStream(guess: string -> Option<string>, f: string)
    requires guess(f).None?
    requires Lower(Extension(f)) !in MimetypeMap
    ensures GetMimetype(guess, f) == "application/octet-stream"
  {
  }
}
