/** The `RegularDecliner` contract of `src/nouns/common.rs`, proved for the
    five decliners: a family never answers for a noun it does not
    recognize, `decline` never produces a form without an ending, and the
    results depend only on the nominative, the genitive, the Greek flag and
    the requested case and number. Both operations are functions of their
    arguments, so neither can change the entry or the form. */
module DeclinerContract {
  import opened Wrappers
  import opened Text
  import opened Latin
  import opened NounsCommon
  import opened Declensions

  /** A rejected noun gets no ending for any form: never a partial
      paradigm. */
  lemma RejectedNounHasNoEndings(d: Decliner, fold: Folder, entry: RegularNoun, form: NounAdjectiveForm)
    requires !d.Recognizes(fold, entry)
    ensures d.GetEnding(fold, entry, form).None?
  {
  }

  /** Recognition is exactly "answers the nominative singular", the request
      the dispatcher classifies with. */
  lemma {:induction false} RecognizedIffNominativeSingular(d: Decliner, fold: Folder, entry: RegularNoun, gender: Gender)
    ensures d.Recognizes(fold, entry) <==> d.GetEnding(fold, entry, NounAdjectiveForm(gender, Nominative, Singular)).Some?
  {
    var form := NounAdjectiveForm(gender, Nominative, Singular);
    match d
    case FirstDeclension =>
      if FirstRecognizes(fold, entry) && !FirstNative(fold, entry) {
        var greek := FirstGreekPatterns(fold, entry);
        assert greek[0] || greek[1] || greek[2];
      }
    case SecondDeclension =>
    case ThirdDeclension =>
    case FourthDeclension =>
    case FifthDeclension =>
  }

  /** No ending, no form; and when `decline` finishes, it has a form
      exactly when there is an ending. */
  lemma NoEndingNoForm(d: Decliner, fold: Folder, entry: RegularNoun, form: NounAdjectiveForm)
    ensures d.GetEnding(fold, entry, form).None? ==> d.Decline(fold, entry, form) == Done(None) || d.Decline(fold, entry, form).Panicked?
    ensures d.Decline(fold, entry, form).Done? ==>
      (d.Decline(fold, entry, form).value.Some? <==> d.GetEnding(fold, entry, form).Some?)
  {
  }

  /** The gender carried by the form is never read: two requests that
      differ only there get the same ending and the same form. */
  lemma FormGenderIrrelevant(d: Decliner, fold: Folder, entry: RegularNoun, f: NounAdjectiveForm, g: NounAdjectiveForm)
    requires f.grammaticalCase == g.grammaticalCase && f.number == g.number
    ensures d.GetEnding(fold, entry, f) == d.GetEnding(fold, entry, g)
    ensures d.Decline(fold, entry, f) == d.Decline(fold, entry, g)
  {
    SameKeySameResult(d, fold, entry, f, entry, g);
  }

  /** No decliner reads the entry's declension or gender. */
  lemma EntryTagsIrrelevant(d: Decliner, fold: Folder, a: RegularNoun, b: RegularNoun, form: NounAdjectiveForm)
    requires a.nom == b.nom && a.gen == b.gen && a.isGreek == b.isGreek
    ensures d.GetEnding(fold, a, form) == d.GetEnding(fold, b, form)
    ensures d.Decline(fold, a, form) == d.Decline(fold, b, form)
  {
    SameKeySameResult(d, fold, a, form, b, form);
  }

  /** What every result depends on: the nominative, the genitive, the
      Greek flag, the case and the number. */
  lemma SameKeySameResult(d: Decliner, fold: Folder, a: RegularNoun, f: NounAdjectiveForm, b: RegularNoun, g: NounAdjectiveForm)
    requires a.nom == b.nom && a.gen == b.gen && a.isGreek == b.isGreek
    requires f.grammaticalCase == g.grammaticalCase && f.number == g.number
    ensures d.GetEnding(fold, a, f) == d.GetEnding(fold, b, g)
    ensures d.Decline(fold, a, f) == d.Decline(fold, b, g)
  {
    SameKeySameEnding(d, fold, a, f, b, g);
    if d != ThirdDeclension {
      assert d.Stem(fold, a) == d.Stem(fold, b);
      if d.Stem(fold, a).Some? {
        SameEndingSameForms(d, fold, a, f, b, g, d.Stem(fold, a).value);
      }
    }
  }

  /** With the same ending, the same stem and the same nominative,
      `decline_from_endings` gives the same result. */
  lemma SameEndingSameForms(d: Decliner, fold: Folder, a: RegularNoun, f: NounAdjectiveForm, b: RegularNoun, g: NounAdjectiveForm, stem: string)
    requires a.nom == b.nom && d.GetEnding(fold, a, f) == d.GetEnding(fold, b, g)
    ensures DeclineFromEndings(d, fold, a, f, stem) == DeclineFromEndings(d, fold, b, g, stem)
  {
  }

  lemma SameKeySameEnding(d: Decliner, fold: Folder, a: RegularNoun, f: NounAdjectiveForm, b: RegularNoun, g: NounAdjectiveForm)
    requires a.nom == b.nom && a.gen == b.gen && a.isGreek == b.isGreek
    requires f.grammaticalCase == g.grammaticalCase && f.number == g.number
    ensures d.GetEnding(fold, a, f) == d.GetEnding(fold, b, g)
  {
    match d {
      case FirstDeclension => FirstSameKey(fold, a, f, b, g);
      case SecondDeclension => SecondSameKey(fold, a, f, b, g);
      case ThirdDeclension =>
      case FourthDeclension => FourthSameKey(fold, a, f, b, g);
      case FifthDeclension => FifthSameKey(fold, a, f, b, g);
    }
  }

  lemma FirstSameKey(fold: Folder, a: RegularNoun, f: NounAdjectiveForm, b: RegularNoun, g: NounAdjectiveForm)
    requires a.nom == b.nom && a.gen == b.gen
    requires f.grammaticalCase == g.grammaticalCase && f.number == g.number
    ensures FirstGetEnding(fold, a, f) == FirstGetEnding(fold, b, g)
  {
  }

  lemma SecondSameKey(fold: Folder, a: RegularNoun, f: NounAdjectiveForm, b: RegularNoun, g: NounAdjectiveForm)
    requires a.nom == b.nom && a.gen == b.gen && a.isGreek == b.isGreek
    requires f.grammaticalCase == g.grammaticalCase && f.number == g.number
    ensures SecondGetEnding(fold, a, f) == SecondGetEnding(fold, b, g)
  {
    var greek := SecondGreekChart(EndsWith(fold(a.nom), "on") || EndsWith(fold(a.nom), "um"));
    assert ChartLookup(SecondChart, f) == ChartLookup(SecondChart, g);
    assert ChartLookup(greek, f) == ChartLookup(greek, g);
    assert SimpleSecondEnding(fold, f, a) == SimpleSecondEnding(fold, g, b);
  }

  lemma FourthSameKey(fold: Folder, a: RegularNoun, f: NounAdjectiveForm, b: RegularNoun, g: NounAdjectiveForm)
    requires a.nom == b.nom && a.gen == b.gen
    requires f.grammaticalCase == g.grammaticalCase && f.number == g.number
    ensures FourthGetEnding(fold, a, f) == FourthGetEnding(fold, b, g)
  {
    assert ChartLookup(FourthCornuChart, f) == ChartLookup(FourthCornuChart, g);
    assert ChartLookup(FourthChart, f) == ChartLookup(FourthChart, g);
  }

  lemma FifthSameKey(fold: Folder, a: RegularNoun, f: NounAdjectiveForm, b: RegularNoun, g: NounAdjectiveForm)
    requires a.nom == b.nom && a.gen == b.gen
    requires f.grammaticalCase == g.grammaticalCase && f.number == g.number
    ensures FifthGetEnding(fold, a, f) == FifthGetEnding(fold, b, g)
  {
  }

  /** Only the Second declension reads the Greek flag. */
  lemma GreekFlagOnlySecond(d: Decliner, fold: Folder, a: RegularNoun, b: RegularNoun, form: NounAdjectiveForm)
    requires d != SecondDeclension
    requires a.nom == b.nom && a.gen == b.gen
    ensures d.GetEnding(fold, a, form) == d.GetEnding(fold, b, form)
    ensures d.Decline(fold, a, form) == d.Decline(fold, b, form)
  {
    match d {
      case FirstDeclension => FirstSameKey(fold, a, form, b, form);
      case ThirdDeclension =>
      case FourthDeclension => FourthSameKey(fold, a, form, b, form);
      case FifthDeclension => FifthSameKey(fold, a, form, b, form);
    }
    if d != ThirdDeclension && d.Stem(fold, a).Some? {
      var stem := d.Stem(fold, a).value;
      assert DeclineFromEndings(d, fold, a, form, stem) == DeclineFromEndings(d, fold, b, form, stem);
    }
  }
}
