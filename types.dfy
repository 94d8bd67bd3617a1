/** The records the host passes in: playable sources, subtitle tracks and audio tracks. */
module Types {
  import opened Wrappers

  /** `label` and `type` are keywords, so the fields are called `labelText` and `kind`. */
  datatype Source = Source(file: string, labelText: Option<string>, kind: Option<string>)

  datatype Subtitle = Subtitle(file: string, lang: string, language: string)

  datatype Audio = Audio(lang: string, language: string)

  /** `source.label` is truthy: present and not empty. */
  predicate Labelled(s: Source) {
    s.labelText.Some? && s.labelText.value != ""
  }
}
