# latparse noun declension, modelled in Dafny

latparse is a small Latin morphology tool. Its `main` takes a nominative
singular, a genitive singular and a gender (`masc`, `fem` or `neu`). It asks
the five regular declension families in turn whether they recognize the noun,
and prints the 7 × 2 paradigm (cases by numbers) of the first family that
does. Each family is a `RegularDecliner`:

- `get_ending` picks an ending token from a chart by the dictionary pair's
  suffixes.
- `decline` slices a stem off the nominative or the genitive and expands the
  token.

The token notation has these parts:

- `/` separates alternatives.
- An empty alternative is the nominative itself.
- `?ī` is an optional contraction of a stem in *i*.
- `!e_ī` is a vocative that contracts when it can and is `-e` otherwise.
- `@tag` marks a form.

The library file also holds the enums with their `from_int` and
`Keyable::index` arithmetic, and `GlobalData`, a table of charts filled by
`add_decl_chart`.

Modules:

- `Wrappers`: `Option` and `Result`.
- `Text`: the string operations the source relies on.
  - `ends_with`.
  - Rust's byte-indexed slicing `s[..s.len() - n]`, over UTF-8 lengths. It is
    `None` where Rust panics.
  - `split('/')` and `join("/")`.
- `Latin` (`src/lib.rs`):
  - the enums and their discriminants;
  - `from_int`;
  - the three `index` functions;
  - the chart filling of `GlobalData` as a class whose `declensions` field
    the methods update in place.
- `NounsCommon` (`src/nouns/common.rs`): the entry and form records.
- `Declensions` (`src/nouns/first_declension.rs`):
  - `chart_lookup` and the charts;
  - each family's `get_ending`;
  - the stems;
  - `decline_from_endings`.
- `DeclensionLaws`: what the ending notation means, each family's choice of
  chart, and when slicing panics.
- `DeclinerContract`: the `RegularDecliner` contract, proved for the five
  decliners.
- `LatparseMain` (`src/main.rs`): the driver.
  - The specification of a run is `RunSpec`.
  - The methods `Run`, `Classify`, `FillTable` and `FillCell` keep the
    source's loops and are proved against it.
- `DriverLaws`: what a run promises.
- `Scenarios`: worked dictionary entries (mensa, puer, templum, manus, res,
  and an unknown word) and whole runs.

`lower_no_macrons` is not part of this model. Its body is not shown, so it is
a parameter `fold: string -> string`. The scenario lemmas state the one fact
they need about it: it leaves the plain lower-case words they use unchanged.

A Rust panic on a string slice becomes an explicit outcome, not a
precondition. `Outcome.Panicked` is used inside the decliners and
`MainError.Panic` for a whole run.

## Model

| member | source | states |
|---|---|---|
| Text.TrimBytes | src/nouns/first_declension.rs:110 | `s[..s.len() - n]` on byte lengths: a prefix of `s` exactly `n` bytes shorter; `None` (the panic) exactly when no prefix ends `n` bytes before the end |
| Text.TrimAsciiTail | src/nouns/first_declension.rs:194 | when the last `n` characters are ASCII, slicing `n` bytes drops exactly `n` characters |
| Text.Split | src/nouns/first_declension.rs:48 | `split('/')` gives at least one piece, no piece contains `/`, and joining the pieces with `/` gives back the string |
| Text.SplitNoSeparator | src/nouns/first_declension.rs:48 | a token without `/` splits into itself alone |
| Text.SplitAtSeparator | src/nouns/first_declension.rs:48 | splitting `a/b` gives `a` followed by the pieces of `b` |
| Text.SplitJoin | src/nouns/first_declension.rs:48-75 | `split` inverts `join` on `/`-free pieces (the round trip `decline_from_endings` relies on) |
| Latin.NumberFromInt | src/lib.rs:10-17 | `Some` exactly for 0 and 1, and then the number with that discriminant |
| Latin.NumberFromIntInverts | src/lib.rs:4-18 | `from_int` inverts the discriminant of every number |
| Latin.CaseFromInt | src/lib.rs:46-59 | `Some` exactly for 0..6, and then the case whose declared discriminant is the input (1 is Vocative) |
| Latin.CaseFromIntInverts | src/lib.rs:35-59 | `from_int` inverts the declared discriminant of every case |
| Latin.NounForm.Index | src/lib.rs:126-130 | `2 * case + number` lies in 0..13 |
| Latin.NounFormAt | src/lib.rs:121-130 | every slot 0..13 is the index of some noun form (the index is onto) |
| Latin.NounFormIndexInjective | src/lib.rs:126-130 | two noun forms with the same index are the same form |
| Latin.AdjectiveForm.Index | src/lib.rs:138-142 | `14 * gender + 2 * case + number` lies in 0..55 |
| Latin.AdjectiveFormIndexInjective | src/lib.rs:138-142 | two adjective forms with the same index are the same form |
| Latin.VerbForm.Index | src/lib.rs:157-165 | the verb index as written lies in 0..149 |
| Latin.VerbFormIndexCollides | src/lib.rs:157-165 | the verb index as written is not injective: two different forms share slot 12 |
| Latin.VerbForm.Key | src/lib.rs:149-165 | the corrected verb key, with strides 36, 18, 6, 2 and 1, lies in 0..215 |
| Latin.VerbFormKeyInjective | src/lib.rs:149-165 | two verb forms with the same corrected key are the same form |
| Latin.Flatten | src/lib.rs:188-189 | the nested loops visit 2 forms per row, so a chart of `r` rows yields `2r` writes |
| Latin.FlattenAt | src/lib.rs:188-194 | the write for row `c`, column `n` carries `chart[c][n]` and is the `(2c + n)`-th |
| Latin.Resize | src/lib.rs:197 | `resize(n, "")` keeps the old entries and pads with empty strings up to length `n` |
| Latin.Write | src/lib.rs:196-200 | the corrected write (`>=` guard) stores the form at `ind`, keeps every other entry, pads any gap with "", and grows the vector only when `ind` is past its end |
| Latin.WriteAsWritten | src/lib.rs:196-200 | the write as written panics exactly when `ind` equals the length |
| Latin.WriteAsWrittenAgrees | src/lib.rs:196-200 | everywhere else the write as written and the corrected write agree |
| Latin.FilledSpec | src/lib.rs:187-203 | `Filled`, the first `k` corrected writes of the loops (lines 188-200): after them the chart holds the first `k` forms in slots 0..k-1 and its old entries after them, and its length is the larger of `k` and the old length |
| Latin.FilledChart | src/lib.rs:187-203 | after a whole chart, slot `2c + n` holds `chart[c][n]`, the later slots keep their values, and the length is at least 14 |
| Latin.AsWrittenPanicsIffShort | src/lib.rs:188-200 | `FilledAsWritten`, the same writes with the `>` guard: they finish exactly when the vector already has at least as many slots as writes, and then agree with the corrected writes |
| Latin.PanicPoint | src/lib.rs:196-200 | when the writes as written have reached the end of the vector, they are exactly the writes to the slots it already had |
| Latin.Slot | src/lib.rs:191-194 | the index computed for row `c`, column `n` through `from_int` and `index` is `2c + n` |
| Latin.GlobalData.constructor | src/lib.rs:206-209 | a fresh `GlobalData` has five empty declension and conjugation charts |
| Latin.GlobalData.AddDeclChart | src/lib.rs:187-203 | the corrected `add_decl_chart` replaces only the chart of `decl` by the chart filled with the 14 forms, and leaves the conjugations alone |
| Latin.GlobalData.AddDeclChartAsWritten | src/lib.rs:187-203 | the method as written panics exactly when the chart has fewer than 14 slots; it then leaves the chart with its own slots overwritten; otherwise it behaves like the corrected one |
| Latin.GlobalData.Construct | src/lib.rs:205-232 | with the corrected guard, `construct` leaves the First and Second charts filled with the 14 forms given there and the other charts empty |
| Latin.GlobalData.ConstructAsWritten | src/lib.rs:205-219 | as written, `construct` panics on its first write, with every chart still empty |
| Declensions.Get | src/nouns/first_declension.rs:14-16 | `.get(i)` is `Some` exactly when `i` is in bounds, and then holds the element |
| Declensions.ChartLookup | src/nouns/first_declension.rs:10-17 | `Some` exactly when the chart has the case row and the number column, and then the entry there |
| Declensions.FirstGetEnding | src/nouns/first_declension.rs:80-107 | an ending is given only to a noun that fits one of the four First declension suffix patterns |
| Declensions.SecondGetEnding | src/nouns/first_declension.rs:155-191 | an ending is given only to a noun that fits the r-stem, neuter or -us/-os patterns |
| Declensions.FourthGetEnding | src/nouns/first_declension.rs:213-256 | an ending is given only to a `cornu`, Greek -o or -us/-us noun |
| Declensions.FifthGetEnding | src/nouns/first_declension.rs:276-299 | an ending is given only to a nominative -es with a genitive -ei |
| Declensions.ExpandAll | src/nouns/first_declension.rs:48-74 | mapping the expansion over the alternatives finishes exactly when every expansion does, and then gives one result per alternative, in order |
| Declensions.DeclineFromEndings | src/nouns/first_declension.rs:41-77 | no form, without panicking, exactly when `get_ending` gives no ending |
| DeclensionLaws.ShortChartsHaveNoLocative | src/nouns/first_declension.rs:10-17 | the six-row charts (First standard, Fourth `cornu`, Fourth standard, Fourth Greek singular) give no Locative |
| DeclensionLaws.StaleCaseOrder | src/lib.rs:35-44 | the charts put the genitive in row 1 and the vocative in row 5, while the declared discriminants put Vocative at 1, a row that holds a genitive ending |
| DeclensionLaws.EmptyAlternativeIsNominative | src/nouns/first_declension.rs:50-52 | an empty alternative expands to the nominative verbatim |
| DeclensionLaws.ExpandAlternativeCases | src/nouns/first_declension.rs:49-73 | `ExpandAlternative`, the closure, tests the stem with `IsCandidate` (line 55) and drops decorations with `Undecorate` (lines 57-64); a non-empty alternative then has five outcomes: the optional contraction, the forced contraction, a dropped `?`, `!` turned into `-e`, and stem + ending |
| DeclensionLaws.ExpandPanicsOnlyOnContraction | src/nouns/first_declension.rs:66-69 | an expansion panics exactly when it contracts a stem in *i* whose last character is not one byte |
| DeclensionLaws.OptionalSyncopationTwoForms | src/nouns/first_declension.rs:66-67 | `?ī` on a stem in *i* gives exactly two alternatives: the contracted archaic form and the full form |
| DeclensionLaws.AsciiStemExpands | src/nouns/first_declension.rs:66-69 | a non-empty ASCII stem never makes an expansion panic |
| DeclensionLaws.DeclineFromEndingsJoins | src/nouns/first_declension.rs:47-76 | with an ending, the result panics exactly when one alternative's expansion panics; otherwise it is the `/`-join of the expansions, in order |
| DeclensionLaws.FirstEndingChoice | src/nouns/first_declension.rs:19-106 | which First chart answers: the standard chart (`SimpleFirstEnding`, lines 19-31) for -a/-ae and for plurals; in the singular, the first Greek pattern that matches |
| DeclensionLaws.SecondRRule | src/nouns/first_declension.rs:159-166 | an r-stem's nominative and vocative singular ending is empty, so `decline` returns the nominative as given |
| DeclensionLaws.SecondNeuterEndings | src/nouns/first_declension.rs:168-182 | neuters take "a" in the nominative, accusative and vocative plural; "um", or "on/um" when Greek, in the nominative and vocative singular; the chart elsewhere |
| DeclensionLaws.SecondOtherEndings | src/nouns/first_declension.rs:116-190 | every other cell of a recognized Second declension noun comes from `SimpleSecondEnding` (lines 116-152): the native or the Greek chart, chosen by the Greek flag |
| DeclensionLaws.SecondVocative | src/nouns/first_declension.rs:58-69 | a native -us noun's vocative singular is stem minus *i* plus "ī" when the stem ends in *i*, and stem + "e" otherwise |
| DeclensionLaws.FourthEndingChoice | src/nouns/first_declension.rs:217-255 | `cornu` nouns use their chart; Greek -o nouns use their list in the singular and the standard chart in the plural; -us/-us nouns use the standard chart |
| DeclensionLaws.FifthEveryCell | src/nouns/first_declension.rs:280-298 | a recognized noun has an ending in all 14 cells; the genitive and dative singular are "ēi" exactly when the nominative ends in -ies, and "eī" exactly when it does not |
| DeclensionLaws.ThirdNeverDeclines | src/nouns/first_declension.rs:200-208 | the Third declension gives no ending and no form |
| DeclensionLaws.StemOfAsciiEntry | src/nouns/first_declension.rs:258-269 | on ASCII words the stem slices of all four decliners (lines 110, 194, 258-269 and 302) drop whole characters: two or one from the genitive, or two from the nominative |
| DeclensionLaws.AsciiEntryNeverPanics | src/nouns/first_declension.rs:66-69 | ASCII nominatives and genitives of at least three letters never make a decliner panic |
| DeclinerContract.RejectedNounHasNoEndings | src/nouns/common.rs:32-37 | `Decliner.GetEnding`, the dispatch to the five `get_ending`s (Third's is constant `None`, first_declension.rs:200-203): a family that does not recognize a noun gives it no ending for any form |
| DeclinerContract.RecognizedIffNominativeSingular | src/nouns/common.rs:32-33 | a family recognizes a noun exactly when it answers the nominative singular |
| DeclinerContract.NoEndingNoForm | src/nouns/first_declension.rs:47 | `Decliner.Decline`, the five `decline` bodies (lines 109-111, 193-195, 205-207, 258-270, 301-303: slice the stem with `Decliner.Stem`, panicking where the slice does, then `decline_from_endings`): no ending means no form (or a panic); when `decline` finishes, it has a form exactly when there is an ending |
| DeclinerContract.FormGenderIrrelevant | src/nouns/common.rs:17-24 | the gender carried by the form is never read |
| DeclinerContract.EntryTagsIrrelevant | src/nouns/common.rs:3-10 | no decliner reads the entry's declension or gender |
| DeclinerContract.SameKeySameResult | src/nouns/common.rs:34-36 | ending and form depend only on nominative, genitive, Greek flag, case and number |
| DeclinerContract.SameEndingSameForms | src/nouns/first_declension.rs:41-77 | the same ending, stem and nominative give the same `decline_from_endings` result |
| DeclinerContract.SameKeySameEnding | src/nouns/common.rs:35 | `get_ending` depends only on nominative, genitive, Greek flag, case and number |
| DeclinerContract.FirstSameKey | src/nouns/first_declension.rs:80-107 | the First ending depends only on nominative, genitive, case and number |
| DeclinerContract.SecondSameKey | src/nouns/first_declension.rs:155-191 | the Second ending depends only on nominative, genitive, Greek flag, case and number |
| DeclinerContract.FourthSameKey | src/nouns/first_declension.rs:213-256 | the Fourth ending depends only on nominative, genitive, case and number |
| DeclinerContract.FifthSameKey | src/nouns/first_declension.rs:276-299 | the Fifth ending depends only on nominative, genitive, case and number |
| DeclinerContract.GreekFlagOnlySecond | src/nouns/first_declension.rs:122 | only the Second declension reads the Greek flag |
| LatparseMain.ClassifyFrom | src/main.rs:46-60 | a classification found from position `i` is a position of the list at or after `i` |
| LatparseMain.PanicEndsTable | src/main.rs:83-86 | a panic in one cell ends the whole table |
| LatparseMain.PanicEndsRow | src/main.rs:76-87 | a panic within a row ends that row |
| LatparseMain.PanicEndsRows | src/main.rs:73-89 | a panic before a row carries to every later row |
| LatparseMain.Run | src/main.rs:16-92 | `main` with the arguments as input and the cells as output computes the specified run |
| LatparseMain.Classify | src/main.rs:37-62 | the classification loop finds what `ClassifyFrom` specifies, a position of the list |
| LatparseMain.FillTable | src/main.rs:73-89 | the nested table loop gives the cells row by row, in print order, or the panic |
| LatparseMain.FillCell | src/main.rs:77-86 | where the chosen decliner has no ending the cell is "--" (or the run panics); any other cell is that decliner's declined form, for a form it has an ending for |
| DriverLaws.DeclinerTagsMatchPositions | src/main.rs:83-85 | the lookup at `declension - 1` finds the decliner tagged with that declension |
| DriverLaws.PrintOrderFollowsCharts | src/main.rs:73-75 | the table's rows follow the charts' case order |
| DriverLaws.ArgumentErrors | src/main.rs:17-35 | `ParseArgs`: "wrong number of args" exactly when fewer than four, "invalid gender" exactly when the fourth is not masc/fem/neu; otherwise the noun carries arguments 1 and 2 |
| DriverLaws.ClassifyFindsFirst | src/main.rs:46-60 | classification settles on `j` exactly when decliner `j` gives a nominative singular and every one before it finishes without one |
| DriverLaws.ClassifyFindsNone | src/main.rs:46-62 | classification finds nothing exactly when every decliner finishes without a nominative singular |
| DriverLaws.ChosenDeclinerRecognizes | src/main.rs:46-60 | the chosen decliner recognizes the noun and none before it does |
| DriverLaws.UnknownDeclensionIff | src/main.rs:62 | "unknown declension" exactly when the arguments are valid and no decliner gives a nominative singular; then no family recognizes the noun |
| DriverLaws.ClassifiedEntry | src/main.rs:56-71 | classification keeps the words and gender and sets the declension; the Greek flag (`IsGreek`, lines 64-71) is set exactly when the declension is Second and the folded nominative ends in "os" or "on" |
| DriverLaws.CellsBeforeLength | src/main.rs:73-89 | the cells before row `c`, column `n` number `2c + n` |
| DriverLaws.CellsBeforeAt | src/main.rs:76-86 | cell `2r + m` is `Cell` (lines 83-86: the decliner at `declension - 1` declines the form, no form giving "--") of row `r`, column `m` |
| DriverLaws.RunTable | src/main.rs:73-89 | a successful run prints 14 cells, cell `(r, m)` being the chosen decliner's form for that case and number, or "--" |
| DriverLaws.CellsWithoutPanic | src/main.rs:73-89 | when no cell panics, neither does the table |
| DriverLaws.ClassifyWithoutPanic | src/main.rs:46-60 | when no decliner panics, neither does classification |
| DriverLaws.AsciiRunNeverPanics | src/main.rs:46-89 | a run on ASCII words of at least three letters never aborts on a slice |
| Scenarios.Glued | src/nouns/first_declension.rs:71 | one glued form per alternative |
| Scenarios.PlainCell | src/nouns/first_declension.rs:58-75 | with a stem that cannot contract, a form is each alternative glued to the stem, joined with `/` |
| Scenarios.PlainSingle | src/nouns/first_declension.rs:58-71 | the same for a single alternative: stem + ending |
| Scenarios.GluedExpands | src/nouns/first_declension.rs:58-74 | expanding non-empty alternatives on a stem that cannot contract glues each to the stem |
| Scenarios.MensaAnswers | src/nouns/first_declension.rs:109-111 | mensa, mensae: the First declension answers "mensa" |
| Scenarios.MensaIsFirst | src/nouns/first_declension.rs:90-94 | mensa, mensae is classified First |
| Scenarios.MensaNominativeSingular | src/nouns/first_declension.rs:22 | nominative singular "mensa" |
| Scenarios.MensaGenitivePlural | src/nouns/first_declension.rs:23 | genitive plural "mensārum/mensum" |
| Scenarios.MensaDativePlural | src/nouns/first_declension.rs:24 | dative plural "mensīs/mensābus@dis" |
| Scenarios.MensaAblativePlural | src/nouns/first_declension.rs:26 | ablative plural "mensīs/mensābus@dis" |
| Scenarios.MensaPrints | src/main.rs:16-92 | the run on mensa, mensae, fem prints a table |
| Scenarios.Mensa | src/main.rs:73-89 | that table has 14 cells, the fourth being "mensārum/mensum" |
| Scenarios.PuerRejected | src/nouns/first_declension.rs:90-105 | puer, pueri: the First declension gives no nominative singular |
| Scenarios.PuerAnswers | src/nouns/first_declension.rs:159-166 | puer, pueri: the Second declension answers "puer" |
| Scenarios.PuerIsSecond | src/main.rs:46-60 | puer, pueri is classified Second |
| Scenarios.PuerNominativeSingular | src/nouns/first_declension.rs:159-166 | nominative singular "puer" |
| Scenarios.PuerVocativeSingular | src/nouns/first_declension.rs:159-166 | vocative singular "puer" |
| Scenarios.PuerGenitiveSingular | src/nouns/first_declension.rs:142 | genitive singular "puerī" (no contraction: the stem does not end in *i*) |
| Scenarios.TemplumRejected | src/nouns/first_declension.rs:90-105 | templum, templi: the First declension gives no nominative singular |
| Scenarios.TemplumAnswers | src/nouns/first_declension.rs:177-181 | templum, templi: the Second declension answers "templum" |
| Scenarios.TemplumIsSecond | src/main.rs:46-60 | templum, templi is classified Second |
| Scenarios.TemplumNominativePlural | src/nouns/first_declension.rs:168-176 | nominative plural "templa" |
| Scenarios.TemplumAccusativePlural | src/nouns/first_declension.rs:168-176 | accusative plural "templa" |
| Scenarios.TemplumVocativePlural | src/nouns/first_declension.rs:168-176 | vocative plural "templa" |
| Scenarios.ManusRejected | src/nouns/first_declension.rs:159-190 | manus, manus: the First and Second declensions give no nominative singular |
| Scenarios.ManusAnswers | src/nouns/first_declension.rs:241-252 | manus, manus: the Fourth declension answers "manus" |
| Scenarios.ManusIsFourth | src/main.rs:46-60 | manus, manus is classified Fourth, skipping the stub Third |
| Scenarios.ManusGenitivePlural | src/nouns/first_declension.rs:245 | genitive plural "manuum" |
| Scenarios.ManusLocativeSingular | src/nouns/first_declension.rs:242-250 | no locative: the standard Fourth chart has six rows |
| Scenarios.ResRejected | src/nouns/first_declension.rs:217-255 | res, rei: the First, Second and Fourth declensions give no nominative singular |
| Scenarios.ResAnswers | src/nouns/first_declension.rs:301-303 | res, rei: the Fifth declension answers "rēs" |
| Scenarios.ResIsFifth | src/main.rs:46-60 | res, rei is classified Fifth |
| Scenarios.ResGenitiveSingular | src/nouns/first_declension.rs:285-290 | genitive singular "reī" |
| Scenarios.ResDativeSingular | src/nouns/first_declension.rs:285-291 | dative singular "reī" |
| Scenarios.XyzRejectedByFirstTwo | src/nouns/first_declension.rs:90-105 | xyz, abc: the First and Second declensions give no nominative singular |
| Scenarios.XyzRejectedByLastTwo | src/nouns/first_declension.rs:281-283 | xyz, abc: the Fourth and Fifth declensions give no nominative singular |
| Scenarios.UnknownNoun | src/main.rs:62 | the run on xyz, abc, masc reports an unknown declension |
| Scenarios.MacronGenitivePanics | src/nouns/first_declension.rs:110 | the run on manus, manūs, fem aborts: the First declension's two-byte slice cuts through "ū" |

## Left out

- Printing:
  - `print!`/`println!` and the tab-separated layout: a run returns the 14 cells in print order.
  - The `io::Error` messages: a run returns a `MainError` value.
  - The exit status.
- Output before a panic: a run that panics is `Err(Panic)`. The cells printed before the panic are not modelled.
- `lower_no_macrons`: not part of this model. Its body is not shown, so it is the parameter `fold`, assumed nothing in general.
- Decliners as trait objects: `Box<dyn RegularDecliner>` becomes the `Decliner` datatype with one constructor per family. Dynamic dispatch is a `match`.
- `NounAdjectiveEntry::decline` (src/nouns/common.rs:26-30): it is `todo!()` and has no behaviour to model.
- `Chart::lookup` (src/lib.rs:175-179): returns a stored function pointer as a `String` and is never called.
- `Chart`'s element type: `Chart` stores `fn() -> String` while `add_decl_chart` stores `&str`, so a chart is modelled as `seq<string>`.
- Verbs: the conjugation side (`src/verbs`) is not part of this model.
- The `NounInfo`, `AdjectiveInfo`, `VerbInfo` and `Conjugation` enums are not modelled. `Mood`, `Voice` and `Tense` appear only for `VerbForm::index`.
- Integer width: `from_int` takes an `i32`, modelled as `int`. The `usize` subtractions in the stem slices (`entry.gen.len() - 2` and its kin, src/nouns/first_declension.rs:67, 69, 110, 194, 263-268, 302) underflow on words shorter than the cut; that underflow panics like a slice off a character boundary, and both are the panic outcome (`Text.TrimBytes` gives `None`). `decl as usize - 1` (src/lib.rs:190, src/main.rs:84) underflows only for `Irregular`, which the `requires` of `AddDeclChart`, `FillTable` and `FillCell` exclude (see their lines below).
- Scenarios: they prove selected cells of each worked paradigm, not all fourteen.
- Declensions.ChartLookup: reads row `Case.Index()`, the Nominative, Genitive, Dative, Accusative, Ablative, Vocative, Locative order that every chart and the printed table use (src/nouns/first_declension.rs:22-27, 141-147, src/main.rs:73-75).
  - The `src/lib.rs` alongside declares Vocative = 1 (src/lib.rs:35-44). Read with it, `form.case as usize` would send a vocative request to the genitive row.
  - That `src/lib.rs` is evidently stale: it exports neither `lower_no_macrons` nor the `nouns` module that `src/main.rs:1-2` imports.
  - `DeclensionLaws.StaleCaseOrder` records the mismatch. `from_int` and `Keyable::index` use the declared discriminants (`Case.DeclaredIndex`).
- Latin.GlobalData.AddDeclChart and Latin.GlobalData.AddDeclChartAsWritten: require `decl != Irregular`. The source would panic there (`decl as usize - 1` underflows), and `construct` never passes it.
- LatparseMain.FillTable and LatparseMain.FillCell: require a classified noun (not `Irregular`). `main` only reaches the table after classification has set the declension.
- Fourth declension Greek -o nouns use their six-entry list in the singular and the standard Fourth chart in the plural (src/nouns/first_declension.rs:231-252); `DeclensionLaws.FourthEndingChoice` states both.
- Arguments: three or more after the program name are accepted and any further ones are ignored (src/main.rs:20-34); `DriverLaws.ArgumentErrors` states it.
- Classification calls each family's `decline`, not `get_ending` (src/main.rs:46-54), so a stem slice can panic before any ending is looked up; `Scenarios.MacronGenitivePanics` shows such a run.

## Findings

| source | as written | input that shows it | evidently intended | confidence | as-written member | corrected member |
|---|---|---|---|---|---|---|
| src/lib.rs:196-200 | the chart grows only when `ind > len`, then `data[ind]` is written | `construct()` on empty charts: the first write has `ind` = 0 = `len`, out of bounds, so `construct` panics | grow when `ind >= len` | high; not executed | Latin.GlobalData.ConstructAsWritten | Latin.GlobalData.Construct |
| src/lib.rs:157-165 | verb strides 24 (tense), 12 (voice), 6 (mood), 2 (person), 1 (number) | present active imperative 1st singular and present passive indicative 1st singular both get index 12 | strides 36, 18, 6, 2, 1, so that each form has its own slot | high; not executed | Latin.VerbFormIndexCollides | Latin.VerbFormKeyInjective |
