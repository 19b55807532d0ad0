/** What the decliners of `src/nouns/first_declension.rs` promise: the
    meaning of the ending notation, each family's choice of table, the
    stems, and when slicing can panic. */
module DeclensionLaws {
  import opened Wrappers
  import opened Text
  import opened Latin
  import opened NounsCommon
  import opened Declensions

  // ---------------------------------------------------------------------------
  // Tables and case order
  // ---------------------------------------------------------------------------

  /** The six-row tables (First standard, Fourth `cornu`, Fourth standard,
      Fourth Greek singular) have no Locative. */
  lemma ShortChartsHaveNoLocative(form: NounAdjectiveForm)
    requires form.grammaticalCase == Locative
    ensures ChartLookup(FirstChart, form).None?
    ensures ChartLookup(FourthCornuChart, form).None?
    ensures ChartLookup(FourthChart, form).None?
    ensures Get(FourthGreekSingular, form.grammaticalCase.Index()).None?
  {
  }

  /** The charts are laid out Nominative, Genitive, Dative, Accusative,
      Ablative, Vocative, Locative, which is the order `Case.Index` follows.
      The discriminants declared in `src/lib.rs` put Vocative at 1: read
      with them, a vocative request would land on the genitive row. */
  lemma StaleCaseOrder()
    ensures FirstChart[Genitive.Index()][Plural.Index()] == "ārum/um"
    ensures SecondChart[Vocative.Index()][Singular.Index()] == "!e_ī"
    ensures FifthChart("eī")[Genitive.Index()][Singular.Index()] == "eī"
    ensures FifthChart("eī")[Dative.Index()][Singular.Index()] == "eī"
    ensures Vocative.DeclaredIndex() == 1 && Genitive.DeclaredIndex() == 2
    ensures SecondChart[Vocative.DeclaredIndex()][Singular.Index()] == "?ī"
  {
  }

  // ---------------------------------------------------------------------------
  // The ending notation
  // ---------------------------------------------------------------------------

  /** An empty alternative stands for the nominative, whatever the stem. */
  lemma EmptyAlternativeIsNominative(fold: Folder, stem: string, nom: string)
    ensures ExpandAlternative(fold, "", stem, nom) == Done(nom)
  {
  }

  /** The five cases of a non-empty alternative. Tags such as "@arch" are
      copied as literal text. */
  lemma ExpandAlternativeCases(fold: Folder, e: string, stem: string, nom: string)
    requires e != ""
    ensures IsCandidate(fold, stem) && e == "?ī" && TrimBytes(stem, 1).Some? ==>
      ExpandAlternative(fold, e, stem, nom) == Done(TrimBytes(stem, 1).value + "ī@arch/" + stem + "ī")
    ensures IsCandidate(fold, stem) && e == "!e_ī" && TrimBytes(stem, 1).Some? ==>
      ExpandAlternative(fold, e, stem, nom) == Done(TrimBytes(stem, 1).value + "ī")
    ensures !IsCandidate(fold, stem) && e[0] == '?' ==> ExpandAlternative(fold, e, stem, nom) == Done(stem + e[1..])
    ensures !IsCandidate(fold, stem) && e[0] == '!' ==> ExpandAlternative(fold, e, stem, nom) == Done(stem + "e")
    ensures (IsCandidate(fold, stem) && e != "?ī" && e != "!e_ī") || (!IsCandidate(fold, stem) && e[0] != '?' && e[0] != '!') ==>
      ExpandAlternative(fold, e, stem, nom) == Done(stem + e)
  {
  }

  /** Expanding an alternative panics exactly when it asks for a
      contraction and the stem's last character cannot be sliced off as one
      byte. */
  lemma ExpandPanicsOnlyOnContraction(fold: Folder, e: string, stem: string, nom: string)
    ensures ExpandAlternative(fold, e, stem, nom).Panicked? <==>
      (e == "?ī" || e == "!e_ī") && IsCandidate(fold, stem) && TrimBytes(stem, 1).None?
  {
  }

  /** Optional syncopation gives exactly two alternatives: the contracted
      archaic form (stem without its last letter, then "ī@arch") and the
      full form (stem + "ī"). */
  lemma {:induction false} OptionalSyncopationTwoForms(fold: Folder, stem: string, nom: string)
    requires IsCandidate(fold, stem) && TrimBytes(stem, 1).Some? && '/' !in stem
    ensures ExpandAlternative(fold, "?ī", stem, nom).Done?
    ensures Split(ExpandAlternative(fold, "?ī", stem, nom).value) == [TrimBytes(stem, 1).value + "ī@arch", stem + "ī"]
  {
    var short := TrimBytes(stem, 1).value;
    var first := short + "ī@arch";
    var second := stem + "ī";
    assert ExpandAlternative(fold, "?ī", stem, nom) == Done(first + "/" + second) by {
      assert Undecorate("?ī", true) == "?ī";
      assert short + "ī@arch/" + stem + "ī" == first + "/" + second;
    }
    assert '/' !in first by {
      forall i | 0 <= i < |short| ensures short[i] != '/' {
        assert short[i] == stem[i];
      }
    }
    SplitAtSeparator(first, second);
    SplitNoSeparator(second);
  }

  /** A stem of at least one ASCII character never makes an expansion
      panic. */
  lemma {:induction false} AsciiStemExpands(fold: Folder, e: string, stem: string, nom: string)
    requires |stem| >= 1 && IsAscii(stem)
    ensures ExpandAlternative(fold, e, stem, nom).Done?
  {
    assert stem[|stem| - 1..] == [stem[|stem| - 1]];
    TrimAsciiTail(stem, 1);
  }

  /** `decline_from_endings` with an ending: the in-order '/'-join of one
      expansion per alternative of the token, or a panic when one expansion
      panics. */
  lemma {:induction false} DeclineFromEndingsJoins(d: Decliner, fold: Folder, entry: RegularNoun, form: NounAdjectiveForm, stem: string, token: string)
    requires d.GetEnding(fold, entry, form) == Some(token)
    ensures DeclineFromEndings(d, fold, entry, form, stem).Panicked? ==>
      exists i :: 0 <= i < |Split(token)| && ExpandAlternative(fold, Split(token)[i], stem, entry.nom).Panicked?
    ensures (exists i :: 0 <= i < |Split(token)| && ExpandAlternative(fold, Split(token)[i], stem, entry.nom).Panicked?) ==>
      DeclineFromEndings(d, fold, entry, form, stem).Panicked?
    ensures DeclineFromEndings(d, fold, entry, form, stem).Done? ==>
      exists forms: seq<string> ::
        |forms| == |Split(token)| &&
        (forall i :: 0 <= i < |forms| ==> Done(forms[i]) == ExpandAlternative(fold, Split(token)[i], stem, entry.nom)) &&
        DeclineFromEndings(d, fold, entry, form, stem) == Done(Some(Join(forms)))
  {
    var parts := Split(token);
    var all := ExpandAll(fold, parts, stem, entry.nom);
    var r := DeclineFromEndings(d, fold, entry, form, stem);
    if all.Done? {
      var forms := all.value;
      assert r == Done(Some(Join(forms)));
      forall i | 0 <= i < |parts| ensures !ExpandAlternative(fold, parts[i], stem, entry.nom).Panicked? {
        assert ExpandAlternative(fold, parts[i], stem, entry.nom).Done?;
      }
      assert !exists i :: 0 <= i < |parts| && ExpandAlternative(fold, parts[i], stem, entry.nom).Panicked?;
      assert forall i :: 0 <= i < |forms| ==> Done(forms[i]) == ExpandAlternative(fold, parts[i], stem, entry.nom);
    } else {
      assert r == Panicked;
      var i :| 0 <= i < |parts| && !ExpandAlternative(fold, parts[i], stem, entry.nom).Done?;
      assert ExpandAlternative(fold, parts[i], stem, entry.nom).Panicked?;
      assert exists j :: 0 <= j < |parts| && ExpandAlternative(fold, parts[j], stem, entry.nom).Panicked?;
    }
  }

  // ---------------------------------------------------------------------------
  // The families
  // ---------------------------------------------------------------------------

  /** First declension: the native pattern uses the standard chart for
      every form, and so does a plural request on a Greek pattern; a
      singular request on a Greek pattern uses the table of the first
      pattern that matches, in the order -e/-es, -es/-ae, -as/-ae. */
  lemma FirstEndingChoice(fold: Folder, entry: RegularNoun, form: NounAdjectiveForm)
    ensures FirstNative(fold, entry) ==> FirstGetEnding(fold, entry, form) == ChartLookup(FirstChart, form)
    ensures form.number == Plural && FirstRecognizes(fold, entry) ==> FirstGetEnding(fold, entry, form) == ChartLookup(FirstChart, form)
    ensures form.number == Singular && !FirstNative(fold, entry) && FirstGreekPatterns(fold, entry)[0] ==>
      FirstGetEnding(fold, entry, form) == Get(FirstGreekE, form.grammaticalCase.Index())
    ensures form.number == Singular && !FirstNative(fold, entry) && !FirstGreekPatterns(fold, entry)[0] && FirstGreekPatterns(fold, entry)[1] ==>
      FirstGetEnding(fold, entry, form) == Get(FirstGreekEs, form.grammaticalCase.Index())
    ensures (form.number == Singular && !FirstNative(fold, entry) && !FirstGreekPatterns(fold, entry)[0] && !FirstGreekPatterns(fold, entry)[1]
      && FirstGreekPatterns(fold, entry)[2]) ==>
      FirstGetEnding(fold, entry, form) == Get(FirstGreekAs, form.grammaticalCase.Index())
  {
  }

  /** Second declension r-stems: the nominative and vocative singular
      ending is empty, so `decline` hands back the nominative unchanged. */
  lemma SecondRRule(fold: Folder, entry: RegularNoun, form: NounAdjectiveForm)
    requires SecondRStem(fold, entry)
    requires form.number == Singular && (form.grammaticalCase == Nominative || form.grammaticalCase == Vocative)
    ensures SecondGetEnding(fold, entry, form) == Some("")
    ensures SecondDeclension.Stem(fold, entry).Some? ==> SecondDeclension.Decline(fold, entry, form) == Done(Some(entry.nom))
  {
    assert Split("") == [""];
  }

  /** Second declension neuters (nominative -um/-on, genitive -i): "a" in
      the nominative, accusative and vocative plural, "um" (or "on/um" for
      a Greek noun) in the nominative and vocative singular, the
      `simple_second_ending` chart elsewhere. */
  lemma SecondNeuterEndings(fold: Folder, entry: RegularNoun, form: NounAdjectiveForm)
    requires SecondNeuter(fold, entry) && !SecondRStem(fold, entry)
    ensures form.number == Plural && form.grammaticalCase in {Nominative, Accusative, Vocative} ==>
      SecondGetEnding(fold, entry, form) == Some("a")
    ensures form.number == Singular && form.grammaticalCase in {Nominative, Vocative} ==>
      SecondGetEnding(fold, entry, form) == Some(if entry.isGreek then "on/um" else "um")
    ensures (!(form.grammaticalCase in {Nominative, Accusative, Vocative} && form.number == Plural)
      && !(form.grammaticalCase in {Nominative, Vocative} && form.number == Singular)) ==>
      SecondGetEnding(fold, entry, form) == SimpleSecondEnding(fold, form, entry)
  {
  }

  /** Every other cell of a recognized Second declension noun goes through
      `simple_second_ending`. */
  lemma SecondOtherEndings(fold: Folder, entry: RegularNoun, form: NounAdjectiveForm)
    requires SecondRecognizes(fold, entry) && !SecondNeuter(fold, entry)
    requires !(SecondRStem(fold, entry) && form.number == Singular && form.grammaticalCase in {Nominative, Vocative})
    ensures SecondGetEnding(fold, entry, form) == SimpleSecondEnding(fold, form, entry)
  {
  }

  /** The vocative singular of a native -us noun: forced contraction to -ī
      when the stem ends in 'i' (filius, fili-: filī), -e otherwise
      (dominus: domine). */
  lemma SecondVocative(fold: Folder, entry: RegularNoun, stem: string)
    requires !entry.isGreek && !SecondRStem(fold, entry) && !SecondNeuter(fold, entry) && SecondRecognizes(fold, entry)
    requires SecondDeclension.Stem(fold, entry) == Some(stem) && TrimBytes(stem, 1).Some?
    ensures SecondDeclension.Decline(fold, entry, NounAdjectiveForm(entry.gender, Vocative, Singular)) ==
      Done(Some(if IsCandidate(fold, stem) then TrimBytes(stem, 1).value + "ī" else stem + "e"))
  {
    var form := NounAdjectiveForm(entry.gender, Vocative, Singular);
    assert SecondGetEnding(fold, entry, form) == Some("!e_ī");
    SplitNoSeparator("!e_ī");
  }

  /** Fourth declension: the `cornu` test comes first; Greek -o nouns use
      their six-entry list in the singular and fall through to the standard
      chart in the plural; -us/-us nouns use the standard chart. */
  lemma FourthEndingChoice(fold: Folder, entry: RegularNoun, form: NounAdjectiveForm)
    ensures FourthCornu(fold, entry) ==> FourthGetEnding(fold, entry, form) == ChartLookup(FourthCornuChart, form)
    ensures !FourthCornu(fold, entry) && FourthGreek(fold, entry) && form.number == Singular ==>
      FourthGetEnding(fold, entry, form) == Get(FourthGreekSingular, form.grammaticalCase.Index())
    ensures !FourthCornu(fold, entry) && FourthGreek(fold, entry) && form.number == Plural ==>
      FourthGetEnding(fold, entry, form) == ChartLookup(FourthChart, form)
    ensures !FourthCornu(fold, entry) && EndsWith(fold(entry.nom), "us") && EndsWith(fold(entry.gen), "us") ==>
      FourthGetEnding(fold, entry, form) == ChartLookup(FourthChart, form)
  {
  }

  /** Fifth declension: a recognized noun has an ending in all fourteen
      cells, and the genitive and dative singular ending is "ēi" exactly
      when the nominative ends in "ies" ("eī" otherwise). */
  lemma FifthEveryCell(fold: Folder, entry: RegularNoun, form: NounAdjectiveForm)
    requires FifthRecognizes(fold, entry)
    ensures FifthGetEnding(fold, entry, form).Some?
    ensures form.number == Singular && (form.grammaticalCase == Genitive || form.grammaticalCase == Dative) ==>
      (FifthGetEnding(fold, entry, form) == Some("ēi") <==> EndsWith(fold(entry.nom), "ies"))
    ensures form.number == Singular && (form.grammaticalCase == Genitive || form.grammaticalCase == Dative) ==>
      (FifthGetEnding(fold, entry, form) == Some("eī") <==> !EndsWith(fold(entry.nom), "ies"))
  {
  }

  /** The Third declension is a stub: no ending and no form, ever. */
  lemma ThirdNeverDeclines(fold: Folder, entry: RegularNoun, form: NounAdjectiveForm)
    ensures ThirdDeclension.GetEnding(fold, entry, form).None?
    ensures ThirdDeclension.Decline(fold, entry, form) == Done(None)
  {
  }

  // ---------------------------------------------------------------------------
  // Stems and panics
  // ---------------------------------------------------------------------------

  lemma AsciiSuffix(s: string, n: nat)
    requires IsAscii(s) && n <= |s|
    ensures IsAscii(s[|s| - n..])
  {
    var tail := s[|s| - n..];
    forall i | 0 <= i < |tail| ensures tail[i] as int < 0x80 {
      assert tail[i] == s[|s| - n + i];
    }
  }

  /** On ASCII words the byte slices are character slices: the genitive
      minus two characters (First), minus one (Second), minus one when the
      folded genitive ends in 'u' and two otherwise (Fourth), the nominative
      minus two (Fifth). */
  lemma {:induction false} StemOfAsciiEntry(d: Decliner, fold: Folder, entry: RegularNoun)
    requires d != ThirdDeclension
    requires IsAscii(entry.nom) && IsAscii(entry.gen) && |entry.nom| >= 2 && |entry.gen| >= 2
    ensures d.Stem(fold, entry) == Some(
      match d
      case FirstDeclension => entry.gen[..|entry.gen| - 2]
      case SecondDeclension => entry.gen[..|entry.gen| - 1]
      case FourthDeclension => entry.gen[..|entry.gen| - (if EndsWith(fold(entry.gen), "u") then 1 else 2)]
      case FifthDeclension => entry.nom[..|entry.nom| - 2])
  {
    match d
    case FirstDeclension =>
      AsciiSuffix(entry.gen, 2);
      TrimAsciiTail(entry.gen, 2);
    case SecondDeclension =>
      AsciiSuffix(entry.gen, 1);
      TrimAsciiTail(entry.gen, 1);
    case FourthDeclension =>
      var n := if EndsWith(fold(entry.gen), "u") then 1 else 2;
      AsciiSuffix(entry.gen, n);
      TrimAsciiTail(entry.gen, n);
    case FifthDeclension =>
      AsciiSuffix(entry.nom, 2);
      TrimAsciiTail(entry.nom, 2);
  }

  /** ASCII nominatives and genitives of at least three letters never make
      a decliner panic: the stem keeps at least one character, so every
      contraction can slice it. */
  lemma {:induction false} AsciiEntryNeverPanics(d: Decliner, fold: Folder, entry: RegularNoun, form: NounAdjectiveForm)
    requires IsAscii(entry.nom) && IsAscii(entry.gen) && |entry.nom| >= 3 && |entry.gen| >= 3
    ensures d.Decline(fold, entry, form).Done?
  {
    if d != ThirdDeclension {
      StemOfAsciiEntry(d, fold, entry);
      var stem := d.Stem(fold, entry).value;
      var source := if d == FifthDeclension then entry.nom else entry.gen;
      assert stem <= source;
      assert IsAscii(stem) by {
        forall i | 0 <= i < |stem| ensures stem[i] as int < 0x80 {
          assert stem[i] == source[i];
        }
      }
      match d.GetEnding(fold, entry, form)
      case None =>
      case Some(token) =>
        var parts := Split(token);
        forall i | 0 <= i < |parts| ensures ExpandAlternative(fold, parts[i], stem, entry.nom).Done? {
          AsciiStemExpands(fold, parts[i], stem, entry.nom);
        }
    }
  }
}
