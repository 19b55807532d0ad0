/** The five regular decliners of `src/nouns/first_declension.rs`: each
    picks a raw ending token for a form by testing suffixes of the folded
    nominative and genitive, and `decline_from_endings` expands the token's
    notation against a stem sliced from the entry. */
module Declensions {
  import opened Wrappers
  import opened Text
  import opened Latin
  import opened NounsCommon

  // ---------------------------------------------------------------------------
  // Table lookup
  // ---------------------------------------------------------------------------

  /** `slice.get(i).copied()`. */
  function Get<T>(s: seq<T>, i: nat): (r: Option<T>)
    ensures r.Some? <==> i < |s|
    ensures r.Some? ==> r.value == s[i]
  {
    if i < |s| then Some(s[i]) else None
  }

  /** `chart_lookup`: the row of the form's case, then the column of its
      number, each bounds-checked. */
  function ChartLookup(chart: seq<seq<string>>, form: NounAdjectiveForm): (r: Option<string>)
    ensures r.Some? <==> form.grammaticalCase.Index() < |chart| && form.number.Index() < |chart[form.grammaticalCase.Index()]|
    ensures r.Some? ==> r.value == chart[form.grammaticalCase.Index()][form.number.Index()]
  {
    match Get(chart, form.grammaticalCase.Index())
    case None => None
    case Some(row) => Get(row, form.number.Index())
  }

  // ---------------------------------------------------------------------------
  // Ending tables
  // ---------------------------------------------------------------------------

  /** `simple_first_ending`'s chart: six rows, no Locative. */
  const FirstChart: seq<seq<string>> := [
    ["a", "ae"],
    ["ae/āī@poet/ās@arch", "ārum/um"],
    ["ae", "īs/ābus@dis"],
    ["am", "ās"],
    ["ā", "īs/ābus@dis"],
    ["a", "ae"]
  ]

  /** Singular endings of the three Greek First declension patterns. */
  const FirstGreekE: seq<string> := ["ē", "ēs", "ae", "ēn", "ē", "ē", "ae"]
  const FirstGreekEs: seq<string> := ["ēs", "ae", "ae", "ēn", "ē", "ē", "ae"]
  const FirstGreekAs: seq<string> := ["ās", "ae", "ae", "ān/am", "ā", "ā", "ae"]

  /** `simple_second_ending`'s chart for native nouns. */
  const SecondChart: seq<seq<string>> := [
    ["us", "ī"],
    ["?ī", "ōrum"],
    ["ō", "īs"],
    ["um", "ōs"],
    ["ō", "īs"],
    ["!e_ī", "ī"],
    ["ī", "īs"]
  ]

  /** `simple_second_ending`'s chart for Greek nouns; the vocative singular
      depends on whether the folded nominative ends in "on" or "um". */
  function SecondGreekChart(neuterVocative: bool): seq<seq<string>> {
    [
      ["us/os", "ī/oe@prop"],
      ["?ī", "ōrum/ōn@prop"],
      ["ō", "īs"],
      ["um/on", "ōs"],
      ["ō", "īs"],
      [if neuterVocative then "on/um" else "e", "ī"],
      ["ī", "īs"]
    ]
  }

  /** The Fourth declension chart of `cornu`-type nouns: six rows. */
  const FourthCornuChart: seq<seq<string>> := [
    ["ū", "ua"],
    ["ūs/(ū)", "uum"],
    ["ū/(ūį)", "ibus"],
    ["ū", "ua"],
    ["ū", "ibus"],
    ["ū", "ua"]
  ]

  /** Singular endings of Greek Fourth declension nouns in -o: six cases. */
  const FourthGreekSingular: seq<string> := ["ō", "ūs", "ō", "ō/ōn/ūn", "ō", "ō"]

  /** The standard Fourth declension chart: six rows. */
  const FourthChart: seq<seq<string>> := [
    ["us", "ūs"],
    ["ūs", "uum"],
    ["uī", "ibus"],
    ["um", "ūs"],
    ["ū", "ibus"],
    ["us", "ūs"]
  ]

  /** The Fifth declension chart, with the genitive and dative singular
      ending supplied. */
  function FifthChart(genDat: string): seq<seq<string>> {
    [
      ["ēs", "ēs"],
      [genDat, "ērum"],
      [genDat, "ēbus"],
      ["em", "ēs"],
      ["ē", "ēbus"],
      ["ēs", "ēs"],
      ["ē", "ēbus"]
    ]
  }

  // ---------------------------------------------------------------------------
  // Recognition tests, one per family
  // ---------------------------------------------------------------------------

  /** First declension, native pattern: nominative -a, genitive -ae. */
  predicate FirstNative(fold: Folder, entry: RegularNoun) {
    EndsWith(fold(entry.nom), "a") && EndsWith(fold(entry.gen), "ae")
  }

  /** `greek_possibilities`: nom -e/gen -es, nom -es/gen -ae, nom -as/gen -ae. */
  function FirstGreekPatterns(fold: Folder, entry: RegularNoun): (p: seq<bool>)
    ensures |p| == 3
  {
    var nom := fold(entry.nom);
    var gen := fold(entry.gen);
    [ EndsWith(nom, "e") && EndsWith(gen, "es"),
      EndsWith(nom, "es") && EndsWith(gen, "ae"),
      EndsWith(nom, "as") && EndsWith(gen, "ae") ]
  }

  predicate FirstRecognizes(fold: Folder, entry: RegularNoun) {
    var nom := fold(entry.nom);
    var gen := fold(entry.gen);
    (EndsWith(nom, "a") && EndsWith(gen, "ae"))
    || (EndsWith(nom, "e") && EndsWith(gen, "es"))
    || (EndsWith(nom, "es") && EndsWith(gen, "ae"))
    || (EndsWith(nom, "as") && EndsWith(gen, "ae"))
  }

  /** Second declension, r-stem: the nominative ends in 'r'. */
  predicate SecondRStem(fold: Folder, entry: RegularNoun) {
    EndsWith(fold(entry.nom), "r")
  }

  /** Second declension neuter: nominative -um or -on, genitive -i. */
  predicate SecondNeuter(fold: Folder, entry: RegularNoun) {
    (EndsWith(fold(entry.nom), "um") || EndsWith(fold(entry.nom), "on")) && EndsWith(fold(entry.gen), "i")
  }

  predicate SecondRecognizes(fold: Folder, entry: RegularNoun) {
    var nom := fold(entry.nom);
    var gen := fold(entry.gen);
    EndsWith(nom, "r")
    || ((EndsWith(nom, "um") || EndsWith(nom, "on")) && EndsWith(gen, "i"))
    || ((EndsWith(nom, "us") || EndsWith(nom, "os")) && EndsWith(gen, "i"))
  }

  /** Fourth declension `cornu` type: nominative -u, genitive -u or -us. */
  predicate FourthCornu(fold: Folder, entry: RegularNoun) {
    EndsWith(fold(entry.nom), "u") && (EndsWith(fold(entry.gen), "u") || EndsWith(fold(entry.gen), "us"))
  }

  /** Fourth declension Greek type: nominative -o, genitive -us. */
  predicate FourthGreek(fold: Folder, entry: RegularNoun) {
    EndsWith(fold(entry.nom), "o") && EndsWith(fold(entry.gen), "us")
  }

  predicate FourthRecognizes(fold: Folder, entry: RegularNoun) {
    var nom := fold(entry.nom);
    var gen := fold(entry.gen);
    (EndsWith(nom, "u") && (EndsWith(gen, "u") || EndsWith(gen, "us")))
    || (EndsWith(nom, "o") && EndsWith(gen, "us"))
    || (EndsWith(nom, "us") && EndsWith(gen, "us"))
  }

  predicate FifthRecognizes(fold: Folder, entry: RegularNoun) {
    EndsWith(fold(entry.nom), "es") && EndsWith(fold(entry.gen), "ei")
  }

  // ---------------------------------------------------------------------------
  // get_ending, family by family
  // ---------------------------------------------------------------------------

  function SimpleFirstEnding(form: NounAdjectiveForm): Option<string> {
    ChartLookup(FirstChart, form)
  }

  /** `FirstDeclension::get_ending`. */
  function FirstGetEnding(fold: Folder, entry: RegularNoun, form: NounAdjectiveForm): (r: Option<string>)
    ensures r.Some? ==> FirstRecognizes(fold, entry)
  {
    var greek := FirstGreekPatterns(fold, entry);
    if FirstNative(fold, entry) || (form.number == Plural && (greek[0] || greek[1] || greek[2])) then
      SimpleFirstEnding(form)
    else
      var table := if greek[0] then Some(FirstGreekE)
        else if greek[1] then Some(FirstGreekEs)
        else if greek[2] then Some(FirstGreekAs)
        else None;
      match table
      case None => None
      case Some(t) => Get(t, form.grammaticalCase.Index())
  }

  /** `simple_second_ending`. */
  function SimpleSecondEnding(fold: Folder, form: NounAdjectiveForm, entry: RegularNoun): Option<string> {
    var nom := fold(entry.nom);
    var chart := if entry.isGreek then SecondGreekChart(EndsWith(nom, "on") || EndsWith(nom, "um")) else SecondChart;
    ChartLookup(chart, form)
  }

  /** `SecondDeclension::get_ending`. The `recognized` flag, set in three
      places in the source, becomes the disjunction of its three tests. */
  function SecondGetEnding(fold: Folder, entry: RegularNoun, form: NounAdjectiveForm): (r: Option<string>)
    ensures r.Some? ==> SecondRecognizes(fold, entry)
  {
    var nom := fold(entry.nom);
    var gen := fold(entry.gen);
    var rStem := EndsWith(nom, "r");
    if rStem && form.number == Singular && form.grammaticalCase in {Nominative, Vocative} then
      Some("")
    else
      var neuter := (EndsWith(nom, "um") || EndsWith(nom, "on")) && EndsWith(gen, "i");
      if neuter && form.number == Plural && form.grammaticalCase in {Nominative, Accusative, Vocative} then
        Some("a")
      else if neuter && form.number == Singular && form.grammaticalCase in {Nominative, Vocative} then
        Some(if entry.isGreek then "on/um" else "um")
      else
        var recognized := rStem || neuter || ((EndsWith(nom, "us") || EndsWith(nom, "os")) && EndsWith(gen, "i"));
        if recognized then SimpleSecondEnding(fold, form, entry) else None
  }

  /** `FourthDeclension::get_ending`. */
  function FourthGetEnding(fold: Folder, entry: RegularNoun, form: NounAdjectiveForm): (r: Option<string>)
    ensures r.Some? ==> FourthRecognizes(fold, entry)
  {
    var nom := fold(entry.nom);
    var gen := fold(entry.gen);
    var recognized := EndsWith(nom, "us") && EndsWith(gen, "us");
    if EndsWith(nom, "u") && (EndsWith(gen, "u") || EndsWith(gen, "us")) then
      ChartLookup(FourthCornuChart, form)
    else
      var greek := EndsWith(nom, "o") && EndsWith(gen, "us");
      if greek && form.number == Singular then
        Get(FourthGreekSingular, form.grammaticalCase.Index())
      else if recognized || greek then
        ChartLookup(FourthChart, form)
      else
        None
  }

  /** `FifthDeclension::get_ending`. */
  function FifthGetEnding(fold: Folder, entry: RegularNoun, form: NounAdjectiveForm): (r: Option<string>)
    ensures r.Some? ==> FifthRecognizes(fold, entry)
  {
    var nom := fold(entry.nom);
    var gen := fold(entry.gen);
    if !(EndsWith(nom, "es") && EndsWith(gen, "ei")) then None
    else ChartLookup(FifthChart(if EndsWith(nom, "ies") then "ēi" else "eī"), form)
  }

  // ---------------------------------------------------------------------------
  // The ending notation
  // ---------------------------------------------------------------------------

  /** Whether ii may contract to ī: the folded stem ends in 'i'. */
  predicate IsCandidate(fold: Folder, stem: string) {
    EndsWith(fold(stem), "i")
  }

  /** The alternative with the decorations that cannot apply removed: a
      leading '?' is dropped and a '!' alternative becomes "e" when the stem
      is no candidate. */
  function Undecorate(e: string, candidate: bool): string {
    if !candidate && |e| > 0 && e[0] == '?' then e[1..]
    else if !candidate && |e| > 0 && e[0] == '!' then "e"
    else e
  }

  /** The closure `decline_from_endings` maps over the alternatives of a
      token. Contraction slices the stem's last byte, which panics when the
      stem is empty or ends in a multi-byte character. */
  function ExpandAlternative(fold: Folder, e: string, stem: string, nom: string): Outcome<string> {
    if e == "" then Done(nom)
    else
      var candidate := IsCandidate(fold, stem);
      var e' := Undecorate(e, candidate);
      if e' == "?ī" && candidate then
        match TrimBytes(stem, 1)
        case None => Panicked
        case Some(short) => Done(short + "ī@arch/" + stem + "ī")
      else if e' == "!e_ī" && candidate then
        match TrimBytes(stem, 1)
        case None => Panicked
        case Some(short) => Done(short + "ī")
      else
        Done(stem + e')
  }

  /** `.map(expand).collect::<Vec<String>>()`: every alternative expanded,
      in order; the whole collection panics when one expansion does. */
  function ExpandAll(fold: Folder, parts: seq<string>, stem: string, nom: string): (r: Outcome<seq<string>>)
    ensures r.Done? <==> forall i :: 0 <= i < |parts| ==> ExpandAlternative(fold, parts[i], stem, nom).Done?
    ensures r.Done? ==> |r.value| == |parts|
    ensures r.Done? ==> forall i :: 0 <= i < |parts| ==> r.value[i] == ExpandAlternative(fold, parts[i], stem, nom).value
  {
    if parts == [] then Done([])
    else
      match ExpandAlternative(fold, parts[0], stem, nom)
      case Panicked => Panicked
      case Done(x) =>
        match ExpandAll(fold, parts[1..], stem, nom)
        case Panicked => Panicked
        case Done(xs) => Done([x] + xs)
  }

  // ---------------------------------------------------------------------------
  // The decliners
  // ---------------------------------------------------------------------------

  /** The five `RegularDecliner` implementations, as a closed family. */
  datatype Decliner = FirstDeclension | SecondDeclension | ThirdDeclension | FourthDeclension | FifthDeclension {

    /** `get_ending`. `ThirdDeclension` is a stub that never answers. */
    function GetEnding(fold: Folder, entry: RegularNoun, form: NounAdjectiveForm): Option<string> {
      match this
      case FirstDeclension => FirstGetEnding(fold, entry, form)
      case SecondDeclension => SecondGetEnding(fold, entry, form)
      case ThirdDeclension => None
      case FourthDeclension => FourthGetEnding(fold, entry, form)
      case FifthDeclension => FifthGetEnding(fold, entry, form)
    }

    /** The family's recognition test: the suffix patterns under which its
        `get_ending` answers at all. */
    predicate Recognizes(fold: Folder, entry: RegularNoun) {
      match this
      case FirstDeclension => FirstRecognizes(fold, entry)
      case SecondDeclension => SecondRecognizes(fold, entry)
      case ThirdDeclension => false
      case FourthDeclension => FourthRecognizes(fold, entry)
      case FifthDeclension => FifthRecognizes(fold, entry)
    }

    /** The stem `decline` slices before asking for the ending: the genitive
        minus two bytes (First), minus one (Second), minus one or two
        depending on whether the folded genitive ends in 'u' (Fourth), the
        nominative minus two (Fifth). None when the slice panics. */
    function Stem(fold: Folder, entry: RegularNoun): Option<string>
      requires this != ThirdDeclension
    {
      match this
      case FirstDeclension => TrimBytes(entry.gen, 2)
      case SecondDeclension => TrimBytes(entry.gen, 1)
      case FourthDeclension => TrimBytes(entry.gen, if EndsWith(fold(entry.gen), "u") then 1 else 2)
      case FifthDeclension => TrimBytes(entry.nom, 2)
    }

    /** `decline`. The stem is sliced first, so a panicking slice aborts even
        for a noun the family would reject; `ThirdDeclension` slices nothing. */
    function Decline(fold: Folder, entry: RegularNoun, form: NounAdjectiveForm): Outcome<Option<string>> {
      if this == ThirdDeclension then Done(None)
      else
        match Stem(fold, entry)
        case None => Panicked
        case Some(stem) => DeclineFromEndings(this, fold, entry, form, stem)
    }
  }

  /** `decline_from_endings`: the ending token split at '/', each
      alternative expanded against the stem, the results joined with '/'.
      No ending, no form. */
  function DeclineFromEndings(d: Decliner, fold: Folder, entry: RegularNoun, form: NounAdjectiveForm, stem: string): (r: Outcome<Option<string>>)
    ensures r == Done(None) <==> d.GetEnding(fold, entry, form).None?
  {
    match d.GetEnding(fold, entry, form)
    case None => Done(None)
    case Some(token) =>
      match ExpandAll(fold, Split(token), stem, entry.nom)
      case Panicked => Panicked
      case Done(forms) => Done(Some(Join(forms)))
  }
}
