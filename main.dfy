/** The command-line driver of `src/main.rs`: validate the arguments,
    classify the noun by asking each decliner in turn for its nominative
    singular, derive the Greek flag, and fill the fourteen cells of the
    paradigm. The process arguments are a parameter and the printed table
    is the returned sequence of cells, row by row. */
module LatparseMain {
  import opened Wrappers
  import opened Text
  import opened Latin
  import opened NounsCommon
  import opened Declensions

  /** Why a run produces no table. `Panic` stands for a run that aborts
      on a string slice. */
  datatype MainError = WrongNumberOfArgs | InvalidGender | UnknownDeclension | Panic

  /** The `declensions` list: each decliner with its tag, in the order
      they are tried. */
  const Decliners: seq<(Decliner, Declension)> := [
    (FirstDeclension, Declension.First),
    (SecondDeclension, Declension.Second),
    (ThirdDeclension, Declension.Third),
    (FourthDeclension, Declension.Fourth),
    (FifthDeclension, Declension.Fifth)
  ]

  /** The rows of the printed table. */
  const PrintOrder: seq<Case> := [Nominative, Genitive, Dative, Accusative, Ablative, Vocative, Locative]

  /** The columns of the printed table. */
  const Numbers: seq<Number> := [Singular, Plural]

  /** The request classification is made with. */
  const ClassifyForm: NounAdjectiveForm := NounAdjectiveForm(Masculine, Nominative, Singular)

  // ---------------------------------------------------------------------------
  // Specification of a run
  // ---------------------------------------------------------------------------

  /** The gender argument: "masc", "fem" or "neu". */
  function ParseGender(token: string): Option<Gender> {
    if token == "masc" then Some(Masculine)
    else if token == "fem" then Some(Feminine)
    else if token == "neu" then Some(Neuter)
    else None
  }

  /** Argument validation: the gender (argument 3) is fetched and checked
      first, then the nominative (1) and the genitive (2). The noun starts
      out `Irregular` and not Greek. Arguments past the third are ignored. */
  function ParseArgs(args: seq<string>): Result<RegularNoun, MainError> {
    match Get(args, 3)
    case None => Err(WrongNumberOfArgs)
    case Some(genStr) =>
      match ParseGender(genStr)
      case None => Err(InvalidGender)
      case Some(gender) =>
        match Get(args, 1)
        case None => Err(WrongNumberOfArgs)
        case Some(nom) =>
          match Get(args, 2)
          case None => Err(WrongNumberOfArgs)
          case Some(gen) => Ok(RegularNoun(Declension.Irregular, gender, false, nom, gen))
  }

  /** The classification loop from position `i` on: the position of the
      first decliner whose `decline` gives a nominative singular, or None
      when none does; a decliner that panics ends the run. */
  function ClassifyFrom(fold: Folder, noun: RegularNoun, i: nat): (r: Outcome<Option<nat>>)
    requires i <= |Decliners|
    ensures r.Done? && r.value.Some? ==> i <= r.value.value < |Decliners|
    decreases |Decliners| - i
  {
    if i == |Decliners| then Done(None)
    else
      match Decliners[i].0.Decline(fold, noun, ClassifyForm)
      case Panicked => Panicked
      case Done(Some(_)) => Done(Some(i))
      case Done(None) => ClassifyFrom(fold, noun, i + 1)
  }

  /** `is_greek`: only a Second declension noun whose folded nominative
      ends in "os" or "on". */
  predicate IsGreek(fold: Folder, declension: Declension, nom: string) {
    declension == Declension.Second && (EndsWith(fold(nom), "os") || EndsWith(fold(nom), "on"))
  }

  /** The noun after classification by the decliner at position `i`. */
  function Classified(fold: Folder, noun: RegularNoun, i: nat): RegularNoun
    requires i < |Decliners|
  {
    var declension := Decliners[i].1;
    noun.(declension := declension, isGreek := IsGreek(fold, declension, noun.nom))
  }

  /** One cell: the decliner at list position `declension - 1` declines
      the form; no form prints as "--". */
  function Cell(fold: Folder, noun: RegularNoun, form: NounAdjectiveForm): Outcome<string>
    requires noun.declension != Declension.Irregular
  {
    var decliner := Get(Decliners, noun.declension.Index() - 1);
    var elem: Outcome<Option<string>> := if decliner.None? then Done(None) else decliner.value.0.Decline(fold, noun, form);
    match elem
    case Panicked => Panicked
    case Done(None) => Done("--")
    case Done(Some(s)) => Done(s)
  }

  /** The cells before row `c`, column `n`: whole rows in print order,
      Singular then Plural within a row. */
  function CellsBefore(fold: Folder, noun: RegularNoun, c: nat, n: nat): Outcome<seq<string>>
    requires noun.declension != Declension.Irregular
    requires (n == 0 && c <= |PrintOrder|) || (c < |PrintOrder| && n <= |Numbers|)
    decreases c, n
  {
    if n == 0 then
      if c == 0 then Done([]) else CellsBefore(fold, noun, c - 1, |Numbers|)
    else
      match CellsBefore(fold, noun, c, n - 1)
      case Panicked => Panicked
      case Done(cells) =>
        match Cell(fold, noun, NounAdjectiveForm(noun.gender, PrintOrder[c], Numbers[n - 1]))
        case Panicked => Panicked
        case Done(s) => Done(cells + [s])
  }

  /** A panic ends the table: once the cells before some position
      panic, so does the whole table. */
  lemma PanicEndsTable(fold: Folder, noun: RegularNoun, c: nat, n: nat)
    requires noun.declension != Declension.Irregular
    requires (n == 0 && c <= |PrintOrder|) || (c < |PrintOrder| && n <= |Numbers|)
    requires CellsBefore(fold, noun, c, n) == Panicked
    ensures CellsBefore(fold, noun, |PrintOrder|, 0) == Panicked
  {
    if c < |PrintOrder| {
      PanicEndsRow(fold, noun, c, n);
      PanicEndsRows(fold, noun, c + 1, |PrintOrder|);
    }
  }

  /** Within a row: a panic before column `n` is a panic before the end
      of the row. */
  lemma PanicEndsRow(fold: Folder, noun: RegularNoun, c: nat, n: nat)
    requires noun.declension != Declension.Irregular
    requires c < |PrintOrder| && n <= |Numbers|
    requires CellsBefore(fold, noun, c, n) == Panicked
    ensures CellsBefore(fold, noun, c + 1, 0) == Panicked
  {
    if n == 0 {
      assert CellsBefore(fold, noun, c, 1) == Panicked;
    }
    if n <= 1 {
      assert CellsBefore(fold, noun, c, 2) == Panicked;
    }
  }

  /** Across rows: a panic before row `c` is a panic before every later
      row `e`. */
  lemma {:induction false} PanicEndsRows(fold: Folder, noun: RegularNoun, c: nat, e: nat)
    requires noun.declension != Declension.Irregular
    requires c <= e <= |PrintOrder|
    requires CellsBefore(fold, noun, c, 0) == Panicked
    ensures CellsBefore(fold, noun, e, 0) == Panicked
    decreases e - c
  {
    if c < e {
      PanicEndsRow(fold, noun, c, 0);
      PanicEndsRows(fold, noun, c + 1, e);
    }
  }

  /** A whole run. */
  function RunSpec(args: seq<string>, fold: Folder): Result<seq<string>, MainError> {
    match ParseArgs(args)
    case Err(e) => Err(e)
    case Ok(noun) =>
      match ClassifyFrom(fold, noun, 0)
      case Panicked => Err(Panic)
      case Done(None) => Err(UnknownDeclension)
      case Done(Some(i)) =>
        match CellsBefore(fold, Classified(fold, noun, i), |PrintOrder|, 0)
        case Panicked => Err(Panic)
        case Done(cells) => Ok(cells)
  }

  // ---------------------------------------------------------------------------
  // main
  // ---------------------------------------------------------------------------

  /** `main`, with the arguments passed in and the printed cells returned. */
  method Run(args: seq<string>, fold: Folder) returns (r: Result<seq<string>, MainError>)
    ensures r == RunSpec(args, fold)
  {
    if |args| <= 3 {
      return Err(WrongNumberOfArgs);
    }
    var genStr := args[3];
    var gender: Gender;
    if genStr == "masc" {
      gender := Masculine;
    } else if genStr == "fem" {
      gender := Feminine;
    } else if genStr == "neu" {
      gender := Neuter;
    } else {
      return Err(InvalidGender);
    }
    var noun := RegularNoun(Declension.Irregular, gender, false, args[1], args[2]);
    assert ParseArgs(args) == Ok(noun);

    var found := Classify(fold, noun);
    if found.Panicked? {
      return Err(Panic);
    }
    if found.value.None? {
      return Err(UnknownDeclension);
    }
    var i := found.value.value;
    noun := noun.(declension := Decliners[i].1);

    var nom := fold(noun.nom);
    noun := noun.(isGreek := noun.declension == Declension.Second && (EndsWith(nom, "os") || EndsWith(nom, "on")));

    var table := FillTable(fold, noun);
    if table.Panicked? {
      return Err(Panic);
    }
    return Ok(table.value);
  }

  /** The classification loop: each decliner in turn declines the
      nominative singular; the first that gives a form wins. */
  method Classify(fold: Folder, noun: RegularNoun) returns (found: Outcome<Option<nat>>)
    ensures found == ClassifyFrom(fold, noun, 0)
    ensures found.Done? && found.value.Some? ==> found.value.value < |Decliners|
  {
    var i := 0;
    while i < |Decliners|
      invariant i <= |Decliners|
      invariant ClassifyFrom(fold, noun, i) == ClassifyFrom(fold, noun, 0)
    {
      var elem := Decliners[i].0.Decline(fold, noun, ClassifyForm);
      if elem.Panicked? {
        return Panicked;
      }
      if elem.value.Some? {
        return Done(Some(i));
      }
      i := i + 1;
    }
    return Done(None);
  }

  /** The table loop: rows in print order, Singular then Plural in each;
      a form the decliner does not give is "--". */
  method FillTable(fold: Folder, noun: RegularNoun) returns (table: Outcome<seq<string>>)
    requires noun.declension != Declension.Irregular
    ensures table == CellsBefore(fold, noun, |PrintOrder|, 0)
  {
    var cells: seq<string> := [];
    for c := 0 to |PrintOrder|
      invariant CellsBefore(fold, noun, c, 0) == Done(cells)
    {
      for n := 0 to |Numbers|
        invariant CellsBefore(fold, noun, c, n) == Done(cells)
      {
        var cell := FillCell(fold, noun, NounAdjectiveForm(noun.gender, PrintOrder[c], Numbers[n]));
        if cell.Panicked? {
          PanicEndsTable(fold, noun, c, n + 1);
          return Panicked;
        }
        cells := cells + [cell.value];
      }
    }
    return Done(cells);
  }

  /** One cell of the table loop: "--" where the chosen decliner has no
      ending, and otherwise the form it declines. */
  method FillCell(fold: Folder, noun: RegularNoun, form: NounAdjectiveForm) returns (cell: Outcome<string>)
    requires noun.declension != Declension.Irregular
    ensures cell == Cell(fold, noun, form)
    ensures Decliners[noun.declension.Index() - 1].0.GetEnding(fold, noun, form).None? ==>
      cell == Done("--") || cell == Panicked
    ensures cell.Done? && cell.value != "--" ==>
      Decliners[noun.declension.Index() - 1].0.GetEnding(fold, noun, form).Some? &&
      Decliners[noun.declension.Index() - 1].0.Decline(fold, noun, form) == Done(Some(cell.value))
  {
    var decliner := Get(Decliners, noun.declension.Index() - 1);
    var elem: Outcome<Option<string>> := if decliner.None? then Done(None) else decliner.value.0.Decline(fold, noun, form);
    if elem.Panicked? {
      return Panicked;
    }
    return Done(if elem.value.Some? then elem.value.value else "--");
  }
}
