/** What the driver of `src/main.rs` promises: argument errors come before
    any declining, the first decliner that answers the nominative singular
    is the one used, the table has one cell per row and column, each cell is
    that decliner's form or "--", and an all-ASCII entry never aborts. */
module DriverLaws {
  import opened Wrappers
  import opened Text
  import opened Latin
  import opened NounsCommon
  import opened Declensions
  import opened DeclinerContract
  import opened DeclensionLaws
  import opened LatparseMain

  /** The `declensions` list holds the decliners in declension order, so
      the tag at position `k` has index `k + 1` and the table's lookup at
      `declension - 1` finds the decliner that classified the noun. */
  lemma DeclinerTagsMatchPositions(k: nat)
    requires k < |Decliners|
    ensures Decliners[k].1.Index() == k + 1
    ensures Get(Decliners, Decliners[k].1.Index() - 1) == Some(Decliners[k])
  {
  }

  /** The table's rows follow the charts' case order. */
  lemma PrintOrderFollowsCharts(k: nat)
    requires k < |PrintOrder|
    ensures PrintOrder[k].Index() == k
  {
  }

  /** The argument checks: fewer than four arguments, then a gender other
      than "masc", "fem" or "neu", are reported before any declining, and
      nothing later reports either error. */
  lemma ArgumentErrors(args: seq<string>, fold: Folder)
    ensures RunSpec(args, fold) == Err(WrongNumberOfArgs) <==> |args| < 4
    ensures RunSpec(args, fold) == Err(InvalidGender) <==> |args| >= 4 && args[3] !in {"masc", "fem", "neu"}
    ensures |args| >= 4 && args[3] in {"masc", "fem", "neu"} ==>
      ParseArgs(args).Ok? && ParseArgs(args).value.nom == args[1] && ParseArgs(args).value.gen == args[2]
  {
  }

  /** Classification from position `i` settles on `j` exactly when the
      decliner at `j` gives a nominative singular and every one before it,
      from `i` on, finishes without one. */
  lemma {:induction false} ClassifyFindsFirst(fold: Folder, noun: RegularNoun, i: nat, j: nat)
    requires i <= j < |Decliners|
    ensures ClassifyFrom(fold, noun, i) == Done(Some(j)) ==>
      Decliners[j].0.Decline(fold, noun, ClassifyForm).Done? && Decliners[j].0.Decline(fold, noun, ClassifyForm).value.Some? &&
      forall k | i <= k < j :: Decliners[k].0.Decline(fold, noun, ClassifyForm) == Done(None)
    ensures (Decliners[j].0.Decline(fold, noun, ClassifyForm).Done? && Decliners[j].0.Decline(fold, noun, ClassifyForm).value.Some? &&
      forall k | i <= k < j :: Decliners[k].0.Decline(fold, noun, ClassifyForm) == Done(None)) ==>
      ClassifyFrom(fold, noun, i) == Done(Some(j))
    decreases j - i
  {
    if i < j {
      ClassifyFindsFirst(fold, noun, i + 1, j);
      if Decliners[i].0.Decline(fold, noun, ClassifyForm) == Done(None) {
        assert ClassifyFrom(fold, noun, i) == ClassifyFrom(fold, noun, i + 1);
        if ClassifyFrom(fold, noun, i) == Done(Some(j)) {
          forall k | i <= k < j ensures Decliners[k].0.Decline(fold, noun, ClassifyForm) == Done(None) {
            if k > i {
              assert i + 1 <= k;
            }
          }
        }
      } else {
        assert ClassifyFrom(fold, noun, i) != Done(Some(j));
      }
    }
  }

  /** Classification from position `i` finds nothing exactly when every
      decliner from `i` on finishes without a nominative singular. */
  lemma {:induction false} ClassifyFindsNone(fold: Folder, noun: RegularNoun, i: nat)
    requires i <= |Decliners|
    ensures ClassifyFrom(fold, noun, i) == Done(None) ==>
      forall k | i <= k < |Decliners| :: Decliners[k].0.Decline(fold, noun, ClassifyForm) == Done(None)
    ensures (forall k | i <= k < |Decliners| :: Decliners[k].0.Decline(fold, noun, ClassifyForm) == Done(None)) ==>
      ClassifyFrom(fold, noun, i) == Done(None)
    decreases |Decliners| - i
  {
    if i < |Decliners| {
      ClassifyFindsNone(fold, noun, i + 1);
      if Decliners[i].0.Decline(fold, noun, ClassifyForm) == Done(None) {
        assert ClassifyFrom(fold, noun, i) == ClassifyFrom(fold, noun, i + 1);
        if ClassifyFrom(fold, noun, i) == Done(None) {
          forall k | i <= k < |Decliners| ensures Decliners[k].0.Decline(fold, noun, ClassifyForm) == Done(None) {
            if k > i {
              assert i + 1 <= k;
            }
          }
        }
      } else {
        assert ClassifyFrom(fold, noun, i) != Done(None);
      }
    }
  }

  /** The chosen decliner recognizes the noun and none before it does. */
  lemma ChosenDeclinerRecognizes(fold: Folder, noun: RegularNoun, j: nat)
    requires ClassifyFrom(fold, noun, 0) == Done(Some(j))
    ensures j < |Decliners| && Decliners[j].0.Recognizes(fold, noun)
    ensures forall k | 0 <= k < j :: !Decliners[k].0.Recognizes(fold, noun)
  {
    ClassifyFindsFirst(fold, noun, 0, j);
    NoEndingNoForm(Decliners[j].0, fold, noun, ClassifyForm);
    RecognizedIffNominativeSingular(Decliners[j].0, fold, noun, Masculine);
    forall k | 0 <= k < j ensures !Decliners[k].0.Recognizes(fold, noun) {
      NoEndingNoForm(Decliners[k].0, fold, noun, ClassifyForm);
      RecognizedIffNominativeSingular(Decliners[k].0, fold, noun, Masculine);
    }
  }

  /** "Unknown declension" is reported exactly when the arguments are valid
      and every decliner finishes without a nominative singular; no
      decliner then recognizes the noun. */
  lemma UnknownDeclensionIff(args: seq<string>, fold: Folder)
    ensures RunSpec(args, fold) == Err(UnknownDeclension) <==>
      (ParseArgs(args).Ok? &&
       forall k | 0 <= k < |Decliners| :: Decliners[k].0.Decline(fold, ParseArgs(args).value, ClassifyForm) == Done(None))
    ensures RunSpec(args, fold) == Err(UnknownDeclension) ==>
      forall k | 0 <= k < |Decliners| :: !Decliners[k].0.Recognizes(fold, ParseArgs(args).value)
  {
    if ParseArgs(args).Ok? {
      var noun := ParseArgs(args).value;
      ClassifyFindsNone(fold, noun, 0);
      if ClassifyFrom(fold, noun, 0) == Done(None) {
        forall k | 0 <= k < |Decliners| ensures !Decliners[k].0.Recognizes(fold, noun) {
          NoEndingNoForm(Decliners[k].0, fold, noun, ClassifyForm);
          RecognizedIffNominativeSingular(Decliners[k].0, fold, noun, Masculine);
        }
      }
    }
  }

  /** Classification keeps the entry and sets the Greek flag exactly for a
      Second declension noun whose folded nominative ends in "os" or "on". */
  lemma ClassifiedEntry(fold: Folder, noun: RegularNoun, i: nat)
    requires i < |Decliners|
    ensures Classified(fold, noun, i).nom == noun.nom && Classified(fold, noun, i).gen == noun.gen
    ensures Classified(fold, noun, i).gender == noun.gender
    ensures Classified(fold, noun, i).declension.Index() == i + 1
    ensures Classified(fold, noun, i).isGreek <==>
      Decliners[i].0 == SecondDeclension && (EndsWith(fold(noun.nom), "os") || EndsWith(fold(noun.nom), "on"))
  {
  }

  /** The cells before row `c`, column `n` number `2c + n`. */
  lemma {:induction false} CellsBeforeLength(fold: Folder, noun: RegularNoun, c: nat, n: nat, cells: seq<string>)
    requires noun.declension != Declension.Irregular
    requires (n == 0 && c <= |PrintOrder|) || (c < |PrintOrder| && n <= |Numbers|)
    requires CellsBefore(fold, noun, c, n) == Done(cells)
    ensures |cells| == 2 * c + n
    decreases c, n
  {
    if n == 0 {
      if c > 0 {
        CellsBeforeLength(fold, noun, c - 1, |Numbers|, cells);
      }
    } else {
      var prev := CellsBefore(fold, noun, c, n - 1).value;
      CellsBeforeLength(fold, noun, c, n - 1, prev);
    }
  }

  /** Cell `2r + m` of the cells before row `c`, column `n` is the cell of
      row `r`, column `m`. */
  lemma {:induction false} CellsBeforeAt(fold: Folder, noun: RegularNoun, c: nat, n: nat, cells: seq<string>, r: nat, m: nat)
    requires noun.declension != Declension.Irregular
    requires (n == 0 && c <= |PrintOrder|) || (c < |PrintOrder| && n <= |Numbers|)
    requires CellsBefore(fold, noun, c, n) == Done(cells)
    requires r < |PrintOrder| && m < |Numbers| && 2 * r + m < 2 * c + n
    ensures 2 * r + m < |cells|
    ensures Cell(fold, noun, NounAdjectiveForm(noun.gender, PrintOrder[r], Numbers[m])) == Done(cells[2 * r + m])
    decreases c, n
  {
    CellsBeforeLength(fold, noun, c, n, cells);
    if n == 0 {
      CellsBeforeAt(fold, noun, c - 1, |Numbers|, cells, r, m);
    } else {
      var prev := CellsBefore(fold, noun, c, n - 1).value;
      CellsBeforeLength(fold, noun, c, n - 1, prev);
      var last := Cell(fold, noun, NounAdjectiveForm(noun.gender, PrintOrder[c], Numbers[n - 1]));
      assert cells == prev + [last.value];
      if 2 * r + m < 2 * c + n - 1 {
        CellsBeforeAt(fold, noun, c, n - 1, prev, r, m);
        assert cells[2 * r + m] == prev[2 * r + m];
      } else {
        assert r == c && m == n - 1;
      }
    }
  }

  /** The printed table: fourteen cells, the cell of row `r`, column `m`
      being what the chosen decliner gives for that case and number, or
      "--" when it gives nothing. */
  lemma RunTable(args: seq<string>, fold: Folder, noun: RegularNoun, i: nat, t: seq<string>, r: nat, m: nat)
    requires ParseArgs(args) == Ok(noun) && ClassifyFrom(fold, noun, 0) == Done(Some(i))
    requires RunSpec(args, fold) == Ok(t)
    requires r < |PrintOrder| && m < |Numbers|
    ensures |t| == 2 * |PrintOrder|
    ensures Decliners[i].0.Decline(fold, Classified(fold, noun, i), NounAdjectiveForm(noun.gender, PrintOrder[r], Numbers[m])).Done?
    ensures t[2 * r + m] ==
      var e := Decliners[i].0.Decline(fold, Classified(fold, noun, i), NounAdjectiveForm(noun.gender, PrintOrder[r], Numbers[m]));
      if e.value.Some? then e.value.value else "--"
  {
    var chosen := Classified(fold, noun, i);
    CellsBeforeLength(fold, chosen, |PrintOrder|, 0, t);
    CellsBeforeAt(fold, chosen, |PrintOrder|, 0, t, r, m);
  }

  /** When no cell panics, neither does the table. */
  lemma {:induction false} CellsWithoutPanic(fold: Folder, noun: RegularNoun, c: nat, n: nat)
    requires noun.declension != Declension.Irregular
    requires (n == 0 && c <= |PrintOrder|) || (c < |PrintOrder| && n <= |Numbers|)
    requires forall form :: Cell(fold, noun, form).Done?
    ensures CellsBefore(fold, noun, c, n).Done?
    decreases c, n
  {
    if n == 0 {
      if c > 0 {
        CellsWithoutPanic(fold, noun, c - 1, |Numbers|);
      }
    } else {
      CellsWithoutPanic(fold, noun, c, n - 1);
    }
  }

  /** When no decliner panics, neither does classification. */
  lemma {:induction false} ClassifyWithoutPanic(fold: Folder, noun: RegularNoun, i: nat)
    requires i <= |Decliners|
    requires forall k | i <= k < |Decliners| :: Decliners[k].0.Decline(fold, noun, ClassifyForm).Done?
    ensures ClassifyFrom(fold, noun, i).Done?
    decreases |Decliners| - i
  {
    if i < |Decliners| {
      ClassifyWithoutPanic(fold, noun, i + 1);
    }
  }

  /** A run on an ASCII nominative and genitive of at least three letters
      each never aborts on a string slice. */
  lemma AsciiRunNeverPanics(args: seq<string>, fold: Folder)
    requires |args| >= 4 && IsAscii(args[1]) && IsAscii(args[2]) && |args[1]| >= 3 && |args[2]| >= 3
    ensures RunSpec(args, fold) != Err(Panic)
  {
    if ParseArgs(args).Ok? {
      var noun := ParseArgs(args).value;
      forall k | 0 <= k < |Decliners| ensures Decliners[k].0.Decline(fold, noun, ClassifyForm).Done? {
        AsciiEntryNeverPanics(Decliners[k].0, fold, noun, ClassifyForm);
      }
      ClassifyWithoutPanic(fold, noun, 0);
      if ClassifyFrom(fold, noun, 0).value.Some? {
        var chosen := Classified(fold, noun, ClassifyFrom(fold, noun, 0).value.value);
        forall form ensures Cell(fold, chosen, form).Done? {
          var d := Get(Decliners, chosen.declension.Index() - 1);
          if d.Some? {
            AsciiEntryNeverPanics(d.value.0, fold, chosen, form);
          }
        }
        CellsWithoutPanic(fold, chosen, |PrintOrder|, 0);
      }
    }
  }
}
