/** The records of `src/nouns/common.rs`: a regular noun entry and the form
    request every decliner answers. */
module NounsCommon {
  import opened Latin

  /** `RegularNoun`: a dictionary entry. The dispatcher fills in
      `declension` and `isGreek` once it has classified the noun. */
  datatype RegularNoun = RegularNoun(declension: Declension, gender: Gender, isGreek: bool, nom: string, gen: string)

  /** `NounAdjectiveEntry`. Its own `decline` is left unimplemented in the
      source, so only the shape is modelled. */
  datatype NounAdjectiveEntry = Regular(noun: RegularNoun) | IrregularEntry

  /** `NounAdjectiveForm`: one cell of the paradigm. Its gender duplicates
      the entry's; no decliner reads it. */
  datatype NounAdjectiveForm = NounAdjectiveForm(gender: Gender, grammaticalCase: Case, number: Number)
}
