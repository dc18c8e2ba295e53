/** Natural languages as the translator sees them. The language catalogue itself
    (the `Lang` enum and its locale default) lives outside the modelled file; only
    the fields the model reads are kept. */
module Languages {

  /** A language: its code and its display name (`langName`), the latter being what
      the "unsupported language" message interpolates. */
  datatype Lang = Lang(code: string, langName: string)

  /** `Lang.ENGLISH`, the fixed fallback target language. */
  const English: Lang := Lang("en", "English")
}
