/** Worked examples on dictionary entries: which family each noun falls
    in, some of its forms, and whole runs of the driver. Each lemma assumes
    that `lower_no_macrons` leaves the plain lower-case words it looks at
    unchanged. */
module Scenarios {
  import opened Wrappers
  import opened Text
  import opened Latin
  import opened NounsCommon
  import opened Declensions
  import opened LatparseMain
  import opened DeclensionLaws
  import opened DriverLaws
  import opened DeclinerContract

  /** Every alternative glued to the stem, its decoration dropped. */
  function Glued(stem: string, parts: seq<string>): (r: seq<string>)
    ensures |r| == |parts|
  {
    if parts == [] then [] else [stem + Undecorate(parts[0], false)] + Glued(stem, parts[1..])
  }

  /** With a stem that cannot contract, each non-empty alternative is glued
      to the stem after its decoration is dropped. */
  lemma {:induction false} PlainCell(d: Decliner, fold: Folder, entry: RegularNoun, form: NounAdjectiveForm, stem: string, parts: seq<string>)
    requires d != ThirdDeclension && d.Stem(fold, entry) == Some(stem) && !IsCandidate(fold, stem)
    requires |parts| >= 1 && forall i :: 0 <= i < |parts| ==> parts[i] != "" && '/' !in parts[i]
    requires d.GetEnding(fold, entry, form) == Some(Join(parts))
    ensures d.Decline(fold, entry, form) == Done(Some(Join(Glued(stem, parts))))
  {
    SplitJoin(parts);
    var r := ExpandAll(fold, parts, stem, entry.nom);
    assert r.Done?;
    GluedExpands(fold, parts, stem, entry.nom);
  }

  /** The same for an ending with a single alternative: the stem followed
      by the alternative. */
  lemma PlainSingle(d: Decliner, fold: Folder, entry: RegularNoun, form: NounAdjectiveForm, stem: string, e: string)
    requires d != ThirdDeclension && d.Stem(fold, entry) == Some(stem) && !IsCandidate(fold, stem)
    requires e != "" && '/' !in e && d.GetEnding(fold, entry, form) == Some(e)
    ensures d.Decline(fold, entry, form) == Done(Some(stem + Undecorate(e, false)))
  {
    assert Join([e]) == e;
    assert Glued(stem, [e]) == [stem + Undecorate(e, false)];
    assert Join([stem + Undecorate(e, false)]) == stem + Undecorate(e, false);
    PlainCell(d, fold, entry, form, stem, [e]);
  }

  lemma {:induction false} GluedExpands(fold: Folder, parts: seq<string>, stem: string, nom: string)
    requires !IsCandidate(fold, stem)
    requires forall i :: 0 <= i < |parts| ==> parts[i] != ""
    ensures ExpandAll(fold, parts, stem, nom) == Done(Glued(stem, parts))
  {
    if parts != [] {
      GluedExpands(fold, parts[1..], stem, nom);
    }
  }

  /** mensa, mensae: the native pattern, so every ending comes from the standard chart. */
  lemma MensaEndings(fold: Folder, noun: RegularNoun, form: NounAdjectiveForm)
    requires fold("mensa") == "mensa" && fold("mensae") == "mensae"
    requires noun.nom == "mensa" && noun.gen == "mensae"
    ensures FirstGetEnding(fold, noun, form) == ChartLookup(FirstChart, form)
  {
    assert EndsWith("mensa", "a") && EndsWith("mensae", "ae");
    FirstEndingChoice(fold, noun, form);
  }

  /** mensa, mensae: the First declension's stem. */
  lemma MensaStem(fold: Folder, noun: RegularNoun)
    requires fold("mens") == "mens" && fold("mensa") == "mensa" && fold("mensae") == "mensae"
    requires noun.nom == "mensa" && noun.gen == "mensae"
    ensures FirstDeclension.Stem(fold, noun) == Some("mens") && !IsCandidate(fold, "mens")
  {
    TrimAsciiTail("mensae", 2);
    assert "mensae"[..4] == "mens";
  }

  lemma MensaAnswers(fold: Folder)
    requires fold("mens") == "mens" && fold("mensa") == "mensa" && fold("mensae") == "mensae"
    ensures FirstDeclension.Decline(fold, RegularNoun(Declension.Irregular, Feminine, false, "mensa", "mensae"), ClassifyForm) == Done(Some("mensa"))
  {
    var noun := RegularNoun(Declension.Irregular, Feminine, false, "mensa", "mensae");
    MensaStem(fold, noun);
    MensaEndings(fold, noun, ClassifyForm);
    assert "mens" + "a" == "mensa";
    PlainSingle(FirstDeclension, fold, noun, ClassifyForm, "mens", "a");
  }

  /** mensa, mensae: the First declension recognizes it. */
  lemma MensaIsFirst(fold: Folder)
    requires fold("mens") == "mens" && fold("mensa") == "mensa" && fold("mensae") == "mensae"
    ensures ClassifyFrom(fold, RegularNoun(Declension.Irregular, Feminine, false, "mensa", "mensae"), 0) == Done(Some(0))
  {
    var noun := RegularNoun(Declension.Irregular, Feminine, false, "mensa", "mensae");
    MensaAnswers(fold);
  }

  lemma MensaNominativeSingular(fold: Folder, noun: RegularNoun)
    requires fold("mens") == "mens" && fold("mensa") == "mensa" && fold("mensae") == "mensae"
    requires noun.nom == "mensa" && noun.gen == "mensae" && !noun.isGreek
    ensures FirstDeclension.Decline(fold, noun, NounAdjectiveForm(noun.gender, Nominative, Singular)) == Done(Some("mensa"))
  {
    MensaStem(fold, noun);
    MensaEndings(fold, noun, NounAdjectiveForm(noun.gender, Nominative, Singular));
    assert "mens" + "a" == "mensa";
    PlainSingle(FirstDeclension, fold, noun, NounAdjectiveForm(noun.gender, Nominative, Singular), "mens", "a");
  }

  lemma MensaGenitivePlural(fold: Folder, noun: RegularNoun)
    requires fold("mens") == "mens" && fold("mensa") == "mensa" && fold("mensae") == "mensae"
    requires noun.nom == "mensa" && noun.gen == "mensae" && !noun.isGreek
    ensures FirstDeclension.Decline(fold, noun, NounAdjectiveForm(noun.gender, Genitive, Plural)) == Done(Some("mensārum/mensum"))
  {
    MensaStem(fold, noun);
    MensaEndings(fold, noun, NounAdjectiveForm(noun.gender, Genitive, Plural));
    MensaGenitivePluralSpelling();
    PlainCell(FirstDeclension, fold, noun, NounAdjectiveForm(noun.gender, Genitive, Plural), "mens", ["ārum", "um"]);
  }

  lemma MensaDativePlural(fold: Folder, noun: RegularNoun)
    requires fold("mens") == "mens" && fold("mensa") == "mensa" && fold("mensae") == "mensae"
    requires noun.nom == "mensa" && noun.gen == "mensae" && !noun.isGreek
    ensures FirstDeclension.Decline(fold, noun, NounAdjectiveForm(noun.gender, Dative, Plural)) == Done(Some("mensīs/mensābus@dis"))
  {
    MensaStem(fold, noun);
    MensaEndings(fold, noun, NounAdjectiveForm(noun.gender, Dative, Plural));
    MensaDativePluralSpelling();
    PlainCell(FirstDeclension, fold, noun, NounAdjectiveForm(noun.gender, Dative, Plural), "mens", ["īs", "ābus@dis"]);
  }

  lemma MensaAblativePlural(fold: Folder, noun: RegularNoun)
    requires fold("mens") == "mens" && fold("mensa") == "mensa" && fold("mensae") == "mensae"
    requires noun.nom == "mensa" && noun.gen == "mensae" && !noun.isGreek
    ensures FirstDeclension.Decline(fold, noun, NounAdjectiveForm(noun.gender, Ablative, Plural)) == Done(Some("mensīs/mensābus@dis"))
  {
    MensaStem(fold, noun);
    MensaEndings(fold, noun, NounAdjectiveForm(noun.gender, Ablative, Plural));
    MensaDativePluralSpelling();
    PlainCell(FirstDeclension, fold, noun, NounAdjectiveForm(noun.gender, Ablative, Plural), "mens", ["īs", "ābus@dis"]);
  }

  /** The run on these arguments prints a table. */
  lemma MensaPrints(args: seq<string>, fold: Folder)
    requires args == ["latparse", "mensa", "mensae", "fem"]
    requires fold("mens") == "mens" && fold("mensa") == "mensa" && fold("mensae") == "mensae"
    ensures RunSpec(args, fold).Ok?
  {
    var noun := RegularNoun(Declension.Irregular, Feminine, false, "mensa", "mensae");
    assert ParseArgs(args) == Ok(noun);
    assert IsAscii("mensa") && IsAscii("mensae");
    MensaIsFirst(fold);
    AsciiRunNeverPanics(args, fold);
  }

  /** The run on mensa, mensae, fem. */
  lemma Mensa(args: seq<string>, fold: Folder)
    requires args == ["latparse", "mensa", "mensae", "fem"]
    requires fold("mens") == "mens" && fold("mensa") == "mensa" && fold("mensae") == "mensae"
    ensures var r := RunSpec(args, fold);
      r.Ok? && |r.value| == 14 &&
      r.value[3] == "mensārum/mensum"
  {
    var noun := RegularNoun(Declension.Irregular, Feminine, false, "mensa", "mensae");
    assert ParseArgs(args) == Ok(noun);
    MensaIsFirst(fold);
    MensaPrints(args, fold);
    var t := RunSpec(args, fold).value;
    var chosen := Classified(fold, noun, 0);
    RunTable(args, fold, noun, 0, t, 0, 0);
    assert t[3] == "mensārum/mensum" by {
      MensaGenitivePlural(fold, chosen);
      RunTable(args, fold, noun, 0, t, 1, 1);
    }
  }

  /** puer, pueri: the Second declension's stem. */
  lemma PuerStem(fold: Folder, noun: RegularNoun)
    requires fold("puer") == "puer" && fold("pueri") == "pueri"
    requires noun.nom == "puer" && noun.gen == "pueri"
    ensures SecondDeclension.Stem(fold, noun) == Some("puer") && !IsCandidate(fold, "puer")
  {
    TrimAsciiTail("pueri", 1);
    assert "pueri"[..4] == "puer";
  }

  /** puer, pueri: the First declension gives no nominative singular. */
  lemma PuerRejected(fold: Folder)
    requires fold("puer") == "puer" && fold("pueri") == "pueri"
    ensures FirstDeclension.Decline(fold, RegularNoun(Declension.Irregular, Masculine, false, "puer", "pueri"), ClassifyForm) == Done(None)
  {
    var noun := RegularNoun(Declension.Irregular, Masculine, false, "puer", "pueri");
    TrimAsciiTail("pueri", 2);
    assert "pueri"[..3] == "pue";
    RejectedNounHasNoEndings(FirstDeclension, fold, noun, ClassifyForm);
  }

  lemma PuerAnswers(fold: Folder)
    requires fold("puer") == "puer" && fold("pueri") == "pueri"
    ensures SecondDeclension.Decline(fold, RegularNoun(Declension.Irregular, Masculine, false, "puer", "pueri"), ClassifyForm) == Done(Some("puer"))
  {
    var noun := RegularNoun(Declension.Irregular, Masculine, false, "puer", "pueri");
    PuerStem(fold, noun);
    SecondRRule(fold, noun, ClassifyForm);
  }

  /** puer, pueri: the First declension rejects it and the Second recognizes it by its final r. */
  lemma PuerIsSecond(fold: Folder)
    requires fold("puer") == "puer" && fold("pueri") == "pueri"
    ensures ClassifyFrom(fold, RegularNoun(Declension.Irregular, Masculine, false, "puer", "pueri"), 0) == Done(Some(1))
  {
    var noun := RegularNoun(Declension.Irregular, Masculine, false, "puer", "pueri");
    PuerRejected(fold);
    PuerAnswers(fold);
    assert ClassifyFrom(fold, noun, 1) == Done(Some(1));
    assert ClassifyFrom(fold, noun, 0) == ClassifyFrom(fold, noun, 1);
  }

  lemma PuerNominativeSingular(fold: Folder, noun: RegularNoun)
    requires fold("puer") == "puer" && fold("pueri") == "pueri"
    requires noun.nom == "puer" && noun.gen == "pueri" && !noun.isGreek
    ensures SecondDeclension.Decline(fold, noun, NounAdjectiveForm(noun.gender, Nominative, Singular)) == Done(Some("puer"))
  {
    PuerStem(fold, noun);
    SecondRRule(fold, noun, NounAdjectiveForm(noun.gender, Nominative, Singular));
  }

  lemma PuerVocativeSingular(fold: Folder, noun: RegularNoun)
    requires fold("puer") == "puer" && fold("pueri") == "pueri"
    requires noun.nom == "puer" && noun.gen == "pueri" && !noun.isGreek
    ensures SecondDeclension.Decline(fold, noun, NounAdjectiveForm(noun.gender, Vocative, Singular)) == Done(Some("puer"))
  {
    PuerStem(fold, noun);
    SecondRRule(fold, noun, NounAdjectiveForm(noun.gender, Vocative, Singular));
  }

  lemma PuerGenitiveSingular(fold: Folder, noun: RegularNoun)
    requires fold("puer") == "puer" && fold("pueri") == "pueri"
    requires noun.nom == "puer" && noun.gen == "pueri" && !noun.isGreek
    ensures SecondDeclension.Decline(fold, noun, NounAdjectiveForm(noun.gender, Genitive, Singular)) == Done(Some("puerī"))
  {
    PuerStem(fold, noun);
    assert Undecorate("?ī", false) == "ī";
    assert "puer" + "ī" == "puerī";
    PlainSingle(SecondDeclension, fold, noun, NounAdjectiveForm(noun.gender, Genitive, Singular), "puer", "?ī");
  }

  /** templum, templi: the Second declension's stem. */
  lemma TemplumStem(fold: Folder, noun: RegularNoun)
    requires fold("templ") == "templ" && fold("templi") == "templi" && fold("templum") == "templum"
    requires noun.nom == "templum" && noun.gen == "templi"
    ensures SecondDeclension.Stem(fold, noun) == Some("templ") && !IsCandidate(fold, "templ")
  {
    TrimAsciiTail("templi", 1);
    assert "templi"[..5] == "templ";
  }

  /** templum, templi: the First declension gives no nominative singular. */
  lemma TemplumRejected(fold: Folder)
    requires fold("templi") == "templi" && fold("templum") == "templum"
    ensures FirstDeclension.Decline(fold, RegularNoun(Declension.Irregular, Neuter, false, "templum", "templi"), ClassifyForm) == Done(None)
  {
    var noun := RegularNoun(Declension.Irregular, Neuter, false, "templum", "templi");
    TrimAsciiTail("templi", 2);
    assert "templi"[..4] == "temp";
    RejectedNounHasNoEndings(FirstDeclension, fold, noun, ClassifyForm);
  }

  lemma TemplumAnswers(fold: Folder)
    requires fold("templ") == "templ" && fold("templi") == "templi" && fold("templum") == "templum"
    ensures SecondDeclension.Decline(fold, RegularNoun(Declension.Irregular, Neuter, false, "templum", "templi"), ClassifyForm) == Done(Some("templum"))
  {
    var noun := RegularNoun(Declension.Irregular, Neuter, false, "templum", "templi");
    TemplumStem(fold, noun);
    assert "templ" + "um" == "templum";
    PlainSingle(SecondDeclension, fold, noun, ClassifyForm, "templ", "um");
  }

  /** templum, templi: a Second declension neuter. */
  lemma TemplumIsSecond(fold: Folder)
    requires fold("templ") == "templ" && fold("templi") == "templi" && fold("templum") == "templum"
    ensures ClassifyFrom(fold, RegularNoun(Declension.Irregular, Neuter, false, "templum", "templi"), 0) == Done(Some(1))
  {
    var noun := RegularNoun(Declension.Irregular, Neuter, false, "templum", "templi");
    TemplumRejected(fold);
    TemplumAnswers(fold);
    assert ClassifyFrom(fold, noun, 1) == Done(Some(1));
    assert ClassifyFrom(fold, noun, 0) == ClassifyFrom(fold, noun, 1);
  }

  lemma TemplumNominativePlural(fold: Folder, noun: RegularNoun)
    requires fold("templ") == "templ" && fold("templi") == "templi" && fold("templum") == "templum"
    requires noun.nom == "templum" && noun.gen == "templi" && !noun.isGreek
    ensures SecondDeclension.Decline(fold, noun, NounAdjectiveForm(noun.gender, Nominative, Plural)) == Done(Some("templa"))
  {
    TemplumStem(fold, noun);
    assert "templ" + "a" == "templa";
    PlainSingle(SecondDeclension, fold, noun, NounAdjectiveForm(noun.gender, Nominative, Plural), "templ", "a");
  }

  lemma TemplumAccusativePlural(fold: Folder, noun: RegularNoun)
    requires fold("templ") == "templ" && fold("templi") == "templi" && fold("templum") == "templum"
    requires noun.nom == "templum" && noun.gen == "templi" && !noun.isGreek
    ensures SecondDeclension.Decline(fold, noun, NounAdjectiveForm(noun.gender, Accusative, Plural)) == Done(Some("templa"))
  {
    TemplumStem(fold, noun);
    assert "templ" + "a" == "templa";
    PlainSingle(SecondDeclension, fold, noun, NounAdjectiveForm(noun.gender, Accusative, Plural), "templ", "a");
  }

  lemma TemplumVocativePlural(fold: Folder, noun: RegularNoun)
    requires fold("templ") == "templ" && fold("templi") == "templi" && fold("templum") == "templum"
    requires noun.nom == "templum" && noun.gen == "templi" && !noun.isGreek
    ensures SecondDeclension.Decline(fold, noun, NounAdjectiveForm(noun.gender, Vocative, Plural)) == Done(Some("templa"))
  {
    TemplumStem(fold, noun);
    assert "templ" + "a" == "templa";
    PlainSingle(SecondDeclension, fold, noun, NounAdjectiveForm(noun.gender, Vocative, Plural), "templ", "a");
  }

  /** manus, manus: not a cornu noun, so every ending comes from the standard chart. */
  lemma ManusEndings(fold: Folder, noun: RegularNoun, form: NounAdjectiveForm)
    requires fold("manus") == "manus"
    requires noun.nom == "manus" && noun.gen == "manus"
    ensures FourthGetEnding(fold, noun, form) == ChartLookup(FourthChart, form)
  {
    assert !EndsWith("manus", "u") && EndsWith("manus", "us");
    FourthEndingChoice(fold, noun, form);
  }

  /** manus, manus: the Fourth declension's stem. */
  lemma ManusStem(fold: Folder, noun: RegularNoun)
    requires fold("man") == "man" && fold("manus") == "manus"
    requires noun.nom == "manus" && noun.gen == "manus"
    ensures FourthDeclension.Stem(fold, noun) == Some("man") && !IsCandidate(fold, "man")
  {
    TrimAsciiTail("manus", 2);
    assert "manus"[..3] == "man";
  }

  /** manus, manus: the First and Second declensions give no nominative singular. */
  lemma ManusRejected(fold: Folder)
    requires fold("manus") == "manus"
    ensures FirstDeclension.Decline(fold, RegularNoun(Declension.Irregular, Feminine, false, "manus", "manus"), ClassifyForm) == Done(None)
    ensures SecondDeclension.Decline(fold, RegularNoun(Declension.Irregular, Feminine, false, "manus", "manus"), ClassifyForm) == Done(None)
  {
    var noun := RegularNoun(Declension.Irregular, Feminine, false, "manus", "manus");
    TrimAsciiTail("manus", 2);
    assert "manus"[..3] == "man";
    TrimAsciiTail("manus", 1);
    assert "manus"[..4] == "manu";
    RejectedNounHasNoEndings(FirstDeclension, fold, noun, ClassifyForm);
    RejectedNounHasNoEndings(SecondDeclension, fold, noun, ClassifyForm);
  }

  lemma ManusAnswers(fold: Folder)
    requires fold("man") == "man" && fold("manus") == "manus"
    ensures FourthDeclension.Decline(fold, RegularNoun(Declension.Irregular, Feminine, false, "manus", "manus"), ClassifyForm) == Done(Some("manus"))
  {
    var noun := RegularNoun(Declension.Irregular, Feminine, false, "manus", "manus");
    ManusStem(fold, noun);
    ManusEndings(fold, noun, ClassifyForm);
    assert "man" + "us" == "manus";
    PlainSingle(FourthDeclension, fold, noun, ClassifyForm, "man", "us");
  }

  /** manus, manus: the Fourth declension, standard chart. */
  lemma ManusIsFourth(fold: Folder)
    requires fold("man") == "man" && fold("manus") == "manus"
    ensures ClassifyFrom(fold, RegularNoun(Declension.Irregular, Feminine, false, "manus", "manus"), 0) == Done(Some(3))
  {
    var noun := RegularNoun(Declension.Irregular, Feminine, false, "manus", "manus");
    ManusRejected(fold);
    ManusAnswers(fold);
    assert ClassifyFrom(fold, noun, 3) == Done(Some(3));
    assert ClassifyFrom(fold, noun, 2) == ClassifyFrom(fold, noun, 3);
    assert ClassifyFrom(fold, noun, 1) == ClassifyFrom(fold, noun, 2);
    assert ClassifyFrom(fold, noun, 0) == ClassifyFrom(fold, noun, 1);
  }

  lemma ManusGenitivePlural(fold: Folder, noun: RegularNoun)
    requires fold("man") == "man" && fold("manus") == "manus"
    requires noun.nom == "manus" && noun.gen == "manus" && !noun.isGreek
    ensures FourthDeclension.Decline(fold, noun, NounAdjectiveForm(noun.gender, Genitive, Plural)) == Done(Some("manuum"))
  {
    ManusStem(fold, noun);
    ManusEndings(fold, noun, NounAdjectiveForm(noun.gender, Genitive, Plural));
    assert "man" + "uum" == "manuum";
    PlainSingle(FourthDeclension, fold, noun, NounAdjectiveForm(noun.gender, Genitive, Plural), "man", "uum");
  }

  lemma ManusLocativeSingular(fold: Folder, noun: RegularNoun)
    requires fold("man") == "man" && fold("manus") == "manus"
    requires noun.nom == "manus" && noun.gen == "manus" && !noun.isGreek
    ensures FourthDeclension.Decline(fold, noun, NounAdjectiveForm(noun.gender, Locative, Singular)) == Done(None)
  {
    ManusStem(fold, noun);
    ManusEndings(fold, noun, NounAdjectiveForm(noun.gender, Locative, Singular));
    assert FourthDeclension.GetEnding(fold, noun, NounAdjectiveForm(noun.gender, Locative, Singular)).None?;
  }

  /** res, rei: the nominative does not end in "ies", so the genitive and dative singular take "eī". */
  lemma ResEndings(fold: Folder, noun: RegularNoun, form: NounAdjectiveForm)
    requires fold("rei") == "rei" && fold("res") == "res"
    requires noun.nom == "res" && noun.gen == "rei"
    ensures FifthGetEnding(fold, noun, form) == ChartLookup(FifthChart("eī"), form)
  {
    assert EndsWith("res", "es") && EndsWith("rei", "ei") && !EndsWith("res", "ies");
  }

  /** res, rei: the Fifth declension's stem. */
  lemma ResStem(fold: Folder, noun: RegularNoun)
    requires fold("r") == "r" && fold("rei") == "rei" && fold("res") == "res"
    requires noun.nom == "res" && noun.gen == "rei"
    ensures FifthDeclension.Stem(fold, noun) == Some("r") && !IsCandidate(fold, "r")
  {
    TrimAsciiTail("res", 2);
    assert "res"[..1] == "r";
  }

  /** res, rei: the First, Second and Fourth declensions give no nominative singular. */
  lemma ResRejected(fold: Folder)
    requires fold("rei") == "rei" && fold("res") == "res"
    ensures FirstDeclension.Decline(fold, RegularNoun(Declension.Irregular, Feminine, false, "res", "rei"), ClassifyForm) == Done(None)
    ensures SecondDeclension.Decline(fold, RegularNoun(Declension.Irregular, Feminine, false, "res", "rei"), ClassifyForm) == Done(None)
    ensures FourthDeclension.Decline(fold, RegularNoun(Declension.Irregular, Feminine, false, "res", "rei"), ClassifyForm) == Done(None)
  {
    var noun := RegularNoun(Declension.Irregular, Feminine, false, "res", "rei");
    TrimAsciiTail("rei", 2);
    assert "rei"[..1] == "r";
    TrimAsciiTail("rei", 1);
    assert "rei"[..2] == "re";
    RejectedNounHasNoEndings(FirstDeclension, fold, noun, ClassifyForm);
    RejectedNounHasNoEndings(SecondDeclension, fold, noun, ClassifyForm);
    RejectedNounHasNoEndings(FourthDeclension, fold, noun, ClassifyForm);
  }

  lemma ResAnswers(fold: Folder)
    requires fold("r") == "r" && fold("rei") == "rei" && fold("res") == "res"
    ensures FifthDeclension.Decline(fold, RegularNoun(Declension.Irregular, Feminine, false, "res", "rei"), ClassifyForm) == Done(Some("rēs"))
  {
    var noun := RegularNoun(Declension.Irregular, Feminine, false, "res", "rei");
    ResStem(fold, noun);
    ResEndings(fold, noun, ClassifyForm);
    assert "r" + "ēs" == "rēs";
    PlainSingle(FifthDeclension, fold, noun, ClassifyForm, "r", "ēs");
  }

  /** res, rei: the Fifth declension. */
  lemma ResIsFifth(fold: Folder)
    requires fold("r") == "r" && fold("rei") == "rei" && fold("res") == "res"
    ensures ClassifyFrom(fold, RegularNoun(Declension.Irregular, Feminine, false, "res", "rei"), 0) == Done(Some(4))
  {
    var noun := RegularNoun(Declension.Irregular, Feminine, false, "res", "rei");
    ResRejected(fold);
    ResAnswers(fold);
    assert ClassifyFrom(fold, noun, 4) == Done(Some(4));
    assert ClassifyFrom(fold, noun, 3) == ClassifyFrom(fold, noun, 4);
    assert ClassifyFrom(fold, noun, 2) == ClassifyFrom(fold, noun, 3);
    assert ClassifyFrom(fold, noun, 1) == ClassifyFrom(fold, noun, 2);
    assert ClassifyFrom(fold, noun, 0) == ClassifyFrom(fold, noun, 1);
  }

  lemma ResGenitiveSingular(fold: Folder, noun: RegularNoun)
    requires fold("r") == "r" && fold("rei") == "rei" && fold("res") == "res"
    requires noun.nom == "res" && noun.gen == "rei" && !noun.isGreek
    ensures FifthDeclension.Decline(fold, noun, NounAdjectiveForm(noun.gender, Genitive, Singular)) == Done(Some("reī"))
  {
    ResStem(fold, noun);
    ResEndings(fold, noun, NounAdjectiveForm(noun.gender, Genitive, Singular));
    assert "r" + "eī" == "reī";
    PlainSingle(FifthDeclension, fold, noun, NounAdjectiveForm(noun.gender, Genitive, Singular), "r", "eī");
  }

  lemma ResDativeSingular(fold: Folder, noun: RegularNoun)
    requires fold("r") == "r" && fold("rei") == "rei" && fold("res") == "res"
    requires noun.nom == "res" && noun.gen == "rei" && !noun.isGreek
    ensures FifthDeclension.Decline(fold, noun, NounAdjectiveForm(noun.gender, Dative, Singular)) == Done(Some("reī"))
  {
    ResStem(fold, noun);
    ResEndings(fold, noun, NounAdjectiveForm(noun.gender, Dative, Singular));
    assert "r" + "eī" == "reī";
    PlainSingle(FifthDeclension, fold, noun, NounAdjectiveForm(noun.gender, Dative, Singular), "r", "eī");
  }

  /** xyz, abc: the First and Second declensions give no nominative singular. */
  lemma XyzRejectedByFirstTwo(fold: Folder)
    requires fold("abc") == "abc" && fold("xyz") == "xyz"
    ensures FirstDeclension.Decline(fold, RegularNoun(Declension.Irregular, Masculine, false, "xyz", "abc"), ClassifyForm) == Done(None)
    ensures SecondDeclension.Decline(fold, RegularNoun(Declension.Irregular, Masculine, false, "xyz", "abc"), ClassifyForm) == Done(None)
  {
    var noun := RegularNoun(Declension.Irregular, Masculine, false, "xyz", "abc");
    TrimAsciiTail("abc", 2);
    assert "abc"[..1] == "a";
    TrimAsciiTail("abc", 1);
    assert "abc"[..2] == "ab";
    RejectedNounHasNoEndings(FirstDeclension, fold, noun, ClassifyForm);
    RejectedNounHasNoEndings(SecondDeclension, fold, noun, ClassifyForm);
  }

  /** xyz, abc: the Fourth and Fifth declensions give no nominative singular. */
  lemma XyzRejectedByLastTwo(fold: Folder)
    requires fold("abc") == "abc" && fold("xyz") == "xyz"
    ensures FourthDeclension.Decline(fold, RegularNoun(Declension.Irregular, Masculine, false, "xyz", "abc"), ClassifyForm) == Done(None)
    ensures FifthDeclension.Decline(fold, RegularNoun(Declension.Irregular, Masculine, false, "xyz", "abc"), ClassifyForm) == Done(None)
  {
    var noun := RegularNoun(Declension.Irregular, Masculine, false, "xyz", "abc");
    TrimAsciiTail("abc", 2);
    assert "abc"[..1] == "a";
    TrimAsciiTail("xyz", 2);
    assert "xyz"[..1] == "x";
    RejectedNounHasNoEndings(FourthDeclension, fold, noun, ClassifyForm);
    RejectedNounHasNoEndings(FifthDeclension, fold, noun, ClassifyForm);
  }

  /** The alternatives of "ārum/um" and their forms on the stem "mens", joined back with '/'. */
  lemma MensaGenitivePluralSpelling()
    ensures Join(["ārum", "um"]) == "ārum/um"
    ensures Join(Glued("mens", ["ārum", "um"])) == "mensārum/mensum"
  {
    assert "mens" + "ārum" == "mensārum";
    assert "mens" + "um" == "mensum";
    assert Glued("mens", ["ārum", "um"]) == ["mensārum", "mensum"];
    assert Join(["mensārum", "mensum"]) == "mensārum/mensum";
  }

  /** The alternatives of "īs/ābus@dis" and their forms on the stem "mens", joined back with '/'. */
  lemma MensaDativePluralSpelling()
    ensures Join(["īs", "ābus@dis"]) == "īs/ābus@dis"
    ensures Join(Glued("mens", ["īs", "ābus@dis"])) == "mensīs/mensābus@dis"
  {
    assert "mens" + "īs" == "mensīs";
    assert "mens" + "ābus@dis" == "mensābus@dis";
    assert Glued("mens", ["īs", "ābus@dis"]) == ["mensīs", "mensābus@dis"];
    assert Join(["mensīs", "mensābus@dis"]) == "mensīs/mensābus@dis";
  }

  /** xyz, abc: no family recognizes the noun. */
  lemma UnknownNoun(args: seq<string>, fold: Folder)
    requires args == ["latparse", "xyz", "abc", "masc"]
    requires fold("xyz") == "xyz" && fold("abc") == "abc"
    ensures RunSpec(args, fold) == Err(UnknownDeclension)
  {
    var noun := RegularNoun(Declension.Irregular, Masculine, false, "xyz", "abc");
    assert ParseArgs(args) == Ok(noun);
    XyzRejectedByFirstTwo(fold);
    XyzRejectedByLastTwo(fold);
    forall k | 0 <= k < |Decliners| ensures Decliners[k].0.Decline(fold, noun, ClassifyForm) == Done(None) {
      assert k == 0 || k == 1 || k == 2 || k == 3 || k == 4;
    }
    UnknownDeclensionIff(args, fold);
  }

  /** manus, manūs: the First declension slices two bytes off the
      genitive, which cuts through the two-byte "ū", so the run aborts
      before any family is chosen. */
  lemma MacronGenitivePanics(args: seq<string>, fold: Folder)
    requires args == ["latparse", "manus", "manūs", "fem"]
    ensures RunSpec(args, fold) == Err(Panic)
  {
    var noun := RegularNoun(Declension.Irregular, Feminine, false, "manus", "manūs");
    assert ParseArgs(args) == Ok(noun);
    assert "manūs"[..4] == "manū" && "manū"[..3] == "man";
    assert TrimBytes("manūs", 2) == None;
  }
}
