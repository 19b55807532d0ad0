/** The crate root (`src/lib.rs`): the grammatical enums with their
    discriminants, the integer conversions, the `Keyable` index arithmetic of
    noun, adjective and verb forms, and the chart store `GlobalData`. */
module Latin {
  import opened Wrappers

  // ---------------------------------------------------------------------------
  // Enums and discriminants
  // ---------------------------------------------------------------------------

  datatype Number = Singular | Plural {
    /** The discriminant, `n as usize`. */
    function Index(): nat {
      match this
      case Singular => 0
      case Plural => 1
    }
  }

  /** `Number::from_int`. */
  function NumberFromInt(i: int): (r: Option<Number>)
    ensures r.Some? <==> i == 0 || i == 1
    ensures r.Some? ==> r.value.Index() == i
  {
    if i == 0 then Some(Singular)
    else if i == 1 then Some(Plural)
    else None
  }

  lemma NumberFromIntInverts(n: Number)
    ensures NumberFromInt(n.Index() as int) == Some(n)
  {
  }

  datatype Gender = Common | Masculine | Feminine | Neuter {
    function Index(): nat {
      match this
      case Common => 0
      case Masculine => 1
      case Feminine => 2
      case Neuter => 3
    }
  }

  datatype Person = First | Second | Third {
    function Index(): nat {
      match this
      case First => 1
      case Second => 2
      case Third => 3
    }
  }

  /** The seven cases. `Index` is the row order every declension chart and
      the printed table use: Nominative, Genitive, Dative, Accusative,
      Ablative, Vocative, Locative. `DeclaredIndex` is the discriminant the
      enum declaration in `src/lib.rs` gives, which puts Vocative second;
      `from_int` and `Keyable::index` use it, the decliners' charts do not
      (see `DeclensionLaws.StaleCaseOrder`). */
  datatype Case = Nominative | Genitive | Dative | Accusative | Ablative | Vocative | Locative {
    function Index(): nat {
      match this
      case Nominative => 0
      case Genitive => 1
      case Dative => 2
      case Accusative => 3
      case Ablative => 4
      case Vocative => 5
      case Locative => 6
    }

    function DeclaredIndex(): nat {
      match this
      case Nominative => 0
      case Vocative => 1
      case Genitive => 2
      case Dative => 3
      case Accusative => 4
      case Ablative => 5
      case Locative => 6
    }
  }

  /** `Case::from_int`: the case whose declared discriminant is `i`. */
  function CaseFromInt(i: int): (r: Option<Case>)
    ensures r.Some? <==> 0 <= i < 7
    ensures r.Some? ==> r.value.DeclaredIndex() == i
  {
    if i == 0 then Some(Nominative)
    else if i == 1 then Some(Vocative)
    else if i == 2 then Some(Genitive)
    else if i == 3 then Some(Dative)
    else if i == 4 then Some(Accusative)
    else if i == 5 then Some(Ablative)
    else if i == 6 then Some(Locative)
    else None
  }

  lemma CaseFromIntInverts(c: Case)
    ensures CaseFromInt(c.DeclaredIndex() as int) == Some(c)
  {
  }

  datatype Mood = Indicative | Subjunctive | Imperative {
    function Index(): nat {
      match this
      case Indicative => 0
      case Subjunctive => 1
      case Imperative => 2
    }
  }

  datatype Voice = Active | Passive {
    function Index(): nat {
      match this
      case Active => 0
      case Passive => 1
    }
  }

  datatype Tense = Present | Imperfect | Perfect | Pluperfect | FuturePerfect | Future {
    function Index(): nat {
      match this
      case Present => 0
      case Imperfect => 1
      case Perfect => 2
      case Pluperfect => 3
      case FuturePerfect => 4
      case Future => 5
    }
  }

  datatype Declension = Irregular | First | Second | Third | Fourth | Fifth {
    function Index(): nat {
      match this
      case Irregular => 0
      case First => 1
      case Second => 2
      case Third => 3
      case Fourth => 4
      case Fifth => 5
    }
  }

  // ---------------------------------------------------------------------------
  // Keyable::index
  // ---------------------------------------------------------------------------

  datatype NounForm = NounForm(grammaticalCase: Case, number: Number) {
    /** `2 * case + number`, with the declared case discriminant: one slot
        of a 14-entry chart per form. */
    function Index(): (k: nat)
      ensures k < 14
    {
      2 * grammaticalCase.DeclaredIndex() + number.Index()
    }
  }

  /** The form stored in slot `k` of a noun chart: the inverse of
      `NounForm.Index`. */
  function NounFormAt(k: nat): (f: NounForm)
    requires k < 14
    ensures f.Index() == k
  {
    NounForm(CaseFromInt(k / 2).value, NumberFromInt(k % 2).value)
  }

  lemma NounFormIndexInjective(f: NounForm, g: NounForm)
    requires f.Index() == g.Index()
    ensures f == g
  {
  }

  datatype AdjectiveForm = AdjectiveForm(gender: Gender, grammaticalCase: Case, number: Number) {
    /** `14 * gender + 2 * case + number`. */
    function Index(): (k: nat)
      ensures k < 56
    {
      14 * gender.Index() + 2 * grammaticalCase.DeclaredIndex() + number.Index()
    }
  }

  lemma AdjectiveFormIndexInjective(f: AdjectiveForm, g: AdjectiveForm)
    requires f.Index() == g.Index()
    ensures f == g
  {
  }

  datatype VerbForm = VerbForm(tense: Tense, voice: Voice, mood: Mood, person: Person, number: Number) {
    /** `24 * tense + 12 * voice + 6 * mood + 2 * (person - 1) + number`. */
    function Index(): (k: nat)
      ensures k < 150
    {
      24 * tense.Index() + 12 * voice.Index() + 6 * mood.Index() + 2 * (person.Index() - 1) + number.Index()
    }

    /** The slot the strides evidently intend: each stride is the number of
        values the components below it span (number 2, person 3, mood 3,
        voice 2), so every form gets a slot of its own. */
    function Key(): (k: nat)
      ensures k < 216
    {
      36 * tense.Index() + 18 * voice.Index() + 6 * mood.Index() + 2 * (person.Index() - 1) + number.Index()
    }
  }

  lemma VerbFormKeyInjective(f: VerbForm, g: VerbForm)
    requires f.Key() == g.Key()
    ensures f == g
  {
  }

  /** Three moods of stride 6 overrun the voice stride 12: the first-person
      singular present active imperative and present passive indicative
      share a slot. */
  lemma VerbFormIndexCollides()
    ensures VerbForm(Present, Active, Imperative, Person.First, Singular).Index() == 12
    ensures VerbForm(Present, Passive, Indicative, Person.First, Singular).Index() == 12
  {
  }

  // ---------------------------------------------------------------------------
  // Chart data and add_decl_chart
  // ---------------------------------------------------------------------------

  /** A chart as `add_decl_chart` receives it: seven rows (cases) of two
      forms (numbers). */
  predicate IsDeclChart(chart: seq<seq<string>>) {
    |chart| == 7 && forall c :: 0 <= c < 7 ==> |chart[c]| == 2
  }

  /** The forms of a chart in the order the nested loops of
      `add_decl_chart` visit them: row by row, singular before plural. */
  function Flatten(rows: seq<seq<string>>): (forms: seq<string>)
    requires forall c :: 0 <= c < |rows| ==> |rows[c]| == 2
    ensures |forms| == 2 * |rows|
  {
    if rows == [] then [] else rows[0] + Flatten(rows[1..])
  }

  /** Row `c`, column `n` of a chart is form `2c + n` of its flattening. */
  lemma {:induction false} FlattenAt(rows: seq<seq<string>>, c: nat, n: nat)
    requires forall c :: 0 <= c < |rows| ==> |rows[c]| == 2
    requires c < |rows| && n < 2
    ensures Flatten(rows)[2 * c + n] == rows[c][n]
  {
    if c > 0 {
      FlattenAt(rows[1..], c - 1, n);
    }
  }

  /** `Vec::resize(n, "")` when `n` is at least the current length. */
  function Resize(data: seq<string>, n: nat): (r: seq<string>)
    requires |data| <= n
    ensures |r| == n && r[..|data|] == data
    ensures forall j :: |data| <= j < n ==> r[j] == ""
  {
    data + seq(n - |data|, _ => "")
  }

  /** One write of the loop with the growth guard `ind >= len`: the vector
      grows when the slot is past its end, then the slot is set. */
  function Write(data: seq<string>, ind: nat, form: string): (r: seq<string>)
    ensures |r| == if ind < |data| then |data| else ind + 1
    ensures r[ind] == form
    ensures forall j :: 0 <= j < |data| && j != ind ==> r[j] == data[j]
    ensures forall j :: |data| <= j < |r| && j != ind ==> r[j] == ""
  {
    if ind >= |data| then Resize(data, ind + 1)[ind := form] else data[ind := form]
  }

  /** One write as the source has it, with the guard `ind > len`: when the
      slot is exactly one past the end the vector is not grown and the
      indexing panics (None). */
  function WriteAsWritten(data: seq<string>, ind: nat, form: string): (r: Option<seq<string>>)
    ensures r.None? <==> ind == |data|
  {
    if ind > |data| then Some(Resize(data, ind + 1)[ind := form])
    else if ind < |data| then Some(data[ind := form])
    else None
  }

  /** Where the source's guard does not panic it writes what the corrected
      guard writes. */
  lemma WriteAsWrittenAgrees(data: seq<string>, ind: nat, form: string)
    requires ind != |data|
    ensures WriteAsWritten(data, ind, form) == Some(Write(data, ind, form))
  {
  }

  /** The chart data after the first `k` writes of `forms`, the `j`-th to
      slot `j`. */
  function Filled(data: seq<string>, forms: seq<string>, k: nat): seq<string>
    requires k <= |forms|
  {
    if k == 0 then data else Write(Filled(data, forms, k - 1), k - 1, forms[k - 1])
  }

  /** The same writes with the source's guard; None once one panics. */
  function FilledAsWritten(data: seq<string>, forms: seq<string>, k: nat): Option<seq<string>>
    requires k <= |forms|
  {
    if k == 0 then Some(data)
    else match FilledAsWritten(data, forms, k - 1)
      case None => None
      case Some(d) => WriteAsWritten(d, k - 1, forms[k - 1])
  }

  /** After `k` writes the first `k` slots hold the first `k` forms, the
      rest of the old data is untouched, and the data grew only as far as
      slot `k - 1`. */
  lemma {:induction false} FilledSpec(data: seq<string>, forms: seq<string>, k: nat)
    requires k <= |forms|
    ensures |Filled(data, forms, k)| == if k <= |data| then |data| else k
    ensures forall j :: 0 <= j < k ==> Filled(data, forms, k)[j] == forms[j]
    ensures forall j :: k <= j < |data| ==> Filled(data, forms, k)[j] == data[j]
  {
    if k > 0 {
      FilledSpec(data, forms, k - 1);
    }
  }

  /** The whole chart lands in its slots: `data[2c + n] == chart[c][n]`. */
  lemma FilledChart(data: seq<string>, chart: seq<seq<string>>)
    requires IsDeclChart(chart)
    ensures |Filled(data, Flatten(chart), 14)| == if 14 <= |data| then |data| else 14
    ensures forall c, n :: 0 <= c < 7 && 0 <= n < 2 ==> Filled(data, Flatten(chart), 14)[2 * c + n] == chart[c][n]
    ensures forall j :: 14 <= j < |data| ==> Filled(data, Flatten(chart), 14)[j] == data[j]
  {
    FilledSpec(data, Flatten(chart), 14);
    forall c, n | 0 <= c < 7 && 0 <= n < 2
      ensures Filled(data, Flatten(chart), 14)[2 * c + n] == chart[c][n]
    {
      FlattenAt(chart, c, n);
    }
  }

  /** The source's guard panics exactly when the data starts out shorter
      than the number of writes: a write to slot `len` never grows the
      vector. Otherwise it performs the same writes as the corrected guard. */
  lemma {:induction false} AsWrittenPanicsIffShort(data: seq<string>, forms: seq<string>, k: nat)
    requires k <= |forms|
    ensures FilledAsWritten(data, forms, k) == if k <= |data| then Some(Filled(data, forms, k)) else None
  {
    if k > 0 {
      AsWrittenPanicsIffShort(data, forms, k - 1);
      if k - 1 <= |data| {
        FilledSpec(data, forms, k - 1);
        if k - 1 < |data| {
          WriteAsWrittenAgrees(Filled(data, forms, k - 1), k - 1, forms[k - 1]);
        }
      }
    }
  }

  /** A write as written that finds slot `k` one past the end comes after
      exactly the writes to the slots the data already had. */
  lemma PanicPoint(data: seq<string>, forms: seq<string>, k: nat)
    requires k <= |forms|
    requires FilledAsWritten(data, forms, k).Some? && |FilledAsWritten(data, forms, k).value| == k
    ensures |data| == k && FilledAsWritten(data, forms, k).value == Filled(data, forms, |data|)
  {
    AsWrittenPanicsIffShort(data, forms, k);
    FilledSpec(data, forms, k);
  }

  /** The slot `add_decl_chart` writes row `c`, column `n` to:
      `NounForm { case: Case::from_int(c), number: Number::from_int(n) }.index()`. */
  function Slot(c: nat, n: nat): (ind: nat)
    requires c < 7 && n < 2
    ensures ind == 2 * c + n
  {
    NounForm(CaseFromInt(c).value, NumberFromInt(n).value).Index()
  }

  /** The two charts `GlobalData::construct` installs, in its row order. */
  const LibFirstChart: seq<seq<string>> := [
    ["a", "ae"], ["a", "ae"], ["ae", "ārum"], ["ae", "īs"], ["am", "ās"], ["ā", "īs"], ["ae", "is"]
  ]
  const LibSecondChart: seq<seq<string>> := [
    ["us", "ī"], ["e", "ī"], ["ī", "ōrum"], ["o", "īs"], ["um", "os"], ["o", "īs"], ["ī", "īs"]
  ]

  /** `GlobalData`: one chart per declension and per conjugation, each a
      growable vector of forms indexed by `Keyable::index`. */
  class GlobalData {
    var declensions: seq<seq<string>>
    var conjugations: seq<seq<string>>

    ghost predicate Valid()
      reads this
    {
      |declensions| == 5 && |conjugations| == 5
    }

    /** `Default::default()`: ten empty charts. */
    constructor ()
      ensures Valid()
      ensures declensions == [[], [], [], [], []] && conjugations == [[], [], [], [], []]
    {
      declensions := [[], [], [], [], []];
      conjugations := [[], [], [], [], []];
    }

    /** `add_decl_chart` with the growth guard corrected to `ind >= len`:
        fills slot `2c + n` of the chart of `decl` with `chart[c][n]` and
        leaves every other chart alone. `decl` must not be `Irregular`,
        whose slot `decl - 1` would underflow. */
    method AddDeclChart(decl: Declension, chart: seq<seq<string>>)
      requires Valid() && decl != Irregular && IsDeclChart(chart)
      modifies this
      ensures Valid() && conjugations == old(conjugations)
      ensures declensions == old(declensions)[decl.Index() - 1 := Filled(old(declensions[decl.Index() - 1]), Flatten(chart), 14)]
    {
      var slot := decl.Index() - 1;
      var data := declensions[slot];
      ghost var before := data;
      ghost var forms := Flatten(chart);
      for c := 0 to 7
        invariant unchanged(this)
        invariant data == Filled(before, forms, 2 * c)
      {
        for n := 0 to 2
          invariant unchanged(this)
          invariant data == Filled(before, forms, 2 * c + n)
        {
          var ind := Slot(c, n);
          FlattenAt(chart, c, n);
          if ind >= |data| {
            data := Resize(data, ind + 1);
          }
          data := data[ind := chart[c][n]];
        }
      }
      declensions := declensions[slot := data];
    }

    /** `add_decl_chart` as written, with the guard `ind > len`. It panics
        (`panicked`) exactly when the chart held fewer than fourteen forms,
        after the writes to the slots it already had. */
    method AddDeclChartAsWritten(decl: Declension, chart: seq<seq<string>>) returns (panicked: bool)
      requires Valid() && decl != Irregular && IsDeclChart(chart)
      modifies this
      ensures Valid() && conjugations == old(conjugations)
      ensures panicked <==> |old(declensions[decl.Index() - 1])| < 14
      ensures !panicked ==>
        declensions == old(declensions)[decl.Index() - 1 := Filled(old(declensions[decl.Index() - 1]), Flatten(chart), 14)]
      ensures panicked ==>
        declensions == old(declensions)[decl.Index() - 1 :=
          Filled(old(declensions[decl.Index() - 1]), Flatten(chart), |old(declensions[decl.Index() - 1])|)]
    {
      var slot := decl.Index() - 1;
      var data := declensions[slot];
      ghost var before := data;
      ghost var forms := Flatten(chart);
      for c := 0 to 7
        invariant unchanged(this)
        invariant FilledAsWritten(before, forms, 2 * c) == Some(data)
      {
        for n := 0 to 2
          invariant unchanged(this)
          invariant FilledAsWritten(before, forms, 2 * c + n) == Some(data)
        {
          var ind := Slot(c, n);
          FlattenAt(chart, c, n);
          AsWrittenPanicsIffShort(before, forms, ind);
          FilledSpec(before, forms, ind);
          if ind > |data| {
            // Never taken: the slots are visited in order, so `ind` reaches
            // the length (and panics there) before it can pass it.
            assert false;
          } else if ind == |data| {
            PanicPoint(before, forms, ind);
            declensions := declensions[slot := data];
            return true;
          }
          data := data[ind := chart[c][n]];
        }
      }
      AsWrittenPanicsIffShort(before, forms, 14);
      declensions := declensions[slot := data];
      return false;
    }

    /** `GlobalData::construct` with the corrected guard: the First and
        Second declension charts are installed slot by slot. */
    constructor Construct()
      ensures Valid() && conjugations == [[], [], [], [], []]
      ensures declensions == [Filled([], Flatten(LibFirstChart), 14), Filled([], Flatten(LibSecondChart), 14), [], [], []]
    {
      declensions := [[], [], [], [], []];
      conjugations := [[], [], [], [], []];
      new;
      AddDeclChart(Declension.First, LibFirstChart);
      assert declensions[1] == [];
      AddDeclChart(Declension.Second, LibSecondChart);
    }

    /** `GlobalData::construct` as written: its first `add_decl_chart`
        writes into an empty chart, so the run panics at the first write
        and never reaches the Second declension chart. */
    static method ConstructAsWritten() returns (g: GlobalData, panicked: bool)
      ensures panicked
      ensures g.Valid() && g.declensions == [[], [], [], [], []]
    {
      g := new GlobalData();
      panicked := g.AddDeclChartAsWritten(Declension.First, LibFirstChart);
    }
  }
}
