/**
 * The default output name of cdOpenOutput: when no -o name was given, the
 * name is derived from the input's stem, with ".h" for a ".rh" input and the
 * host language's source extension otherwise.
 */
module OutputName {
  import opened Wrappers
  import opened FileNames
  import opened CodeGen

  /** The `defExtension` switch: a source extension for C and D, null otherwise. */
  function DefaultExtension(lang: HostLang): (r: Option<string>)
    ensures r.Some? <==> IsCdLang(lang)
    ensures r.Some? ==> IsExtension(r.value) && r.value != ".rh"
  {
    match lang
    case C => Some(".c")
    case D => Some(".d")
    case Other(_) => None
  }

  /** The name cdOpenOutput derives when `outputFileName` is null. */
  function DefaultOutputName(inputFile: string, lang: HostLang): (r: string)
    requires IsCdLang(lang)
    ensures |r| == |Stem(inputFile)| + 2 && r[..|Stem(inputFile)|] == Stem(inputFile)
    ensures r[|r| - 2] == '.'
    ensures r[|r| - 1] == if FindFileExtension(inputFile) == Some(".rh") then 'h'
                          else if lang.C? then 'c' else 'd'
  {
    if FindFileExtension(inputFile) == Some(".rh") then
      FileNameFromStem(inputFile, ".h")
    else
      FileNameFromStem(inputFile, DefaultExtension(lang).value)
  }

  /**
   * The derived name keeps the input's stem; its extension is ".h" for a
   * ".rh" input and otherwise ".c" for C and ".d" for D.
   */
  lemma DefaultOutputNameShape(inputFile: string, lang: HostLang)
    requires IsCdLang(lang)
    ensures Stem(DefaultOutputName(inputFile, lang)) == Stem(inputFile)
    ensures FindFileExtension(inputFile) == Some(".rh") ==>
              FindFileExtension(DefaultOutputName(inputFile, lang)) == Some(".h")
    ensures FindFileExtension(inputFile) != Some(".rh") ==>
              FindFileExtension(DefaultOutputName(inputFile, lang)) ==
              Some(if lang.C? then ".c" else ".d")
  {
    if FindFileExtension(inputFile) == Some(".rh") {
      DerivedNameRoundTrip(inputFile, ".h");
    } else {
      DerivedNameRoundTrip(inputFile, DefaultExtension(lang).value);
    }
  }

  /**
   * The derived name collides with the input exactly when the input already
   * carries the language's source extension ("foo.c" for C, "foo.d" for D).
   */
  lemma DefaultNameIsInputIff(inputFile: string, lang: HostLang)
    requires IsCdLang(lang)
    ensures DefaultOutputName(inputFile, lang) == inputFile <==>
            FindFileExtension(inputFile) == DefaultExtension(lang)
  {
  }
}
