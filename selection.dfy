/**
 * The multi-selection summary of the action bar: one pass over the selected
 * files that counts folders and other items, sums what is known about their
 * contents and sizes, and remembers the first name; then the fixed table that
 * turns those numbers into the status line.
 */
module Selection {
  import opened Optional
  import opened Text

  /**
   * What the summary reads of one selected file. `directoryItemCount` is the
   * outcome of asking a folder for its item count (None when the count is not
   * available). `canGetSize` is the answer of the file's can-get-size query,
   * kept as the raw bit because the loop tests its negation.
   */
  datatype Entry = Entry(
    displayName: string,
    isDirectory: bool,
    directoryItemCount: Option<nat>,
    canGetSize: bool,
    size: nat,
    hasThumbnail: bool)

  /** The loop's accumulators after the pass over the selection. */
  datatype Summary = Summary(
    folderCount: nat,
    folderItemCount: nat,
    folderItemCountKnown: bool,
    nonFolderCount: nat,
    nonFolderSize: nat,
    nonFolderSizeKnown: bool,
    firstItemName: Option<string>)

  // ---------------------------------------------------------------------------
  // Reference definitions of what the pass computes, entry by entry.
  // ---------------------------------------------------------------------------

  /** Sum of a per-entry weight over a selection, in list order. */
  function Total(s: seq<Entry>, w: Entry -> nat): (sum: nat)
  {
    if s == [] then 0 else w(s[0]) + Total(s[1..], w)
  }

  function FolderWeight(e: Entry): (w: nat) {
    if e.isDirectory then 1 else 0
  }

  function NonFolderWeight(e: Entry): (w: nat) {
    if e.isDirectory then 0 else 1
  }

  /** A folder contributes its item count when that count is available. */
  function ItemCountWeight(e: Entry): (w: nat) {
    if e.isDirectory && e.directoryItemCount.Some? then e.directoryItemCount.value else 0
  }

  /** The size guard as the loop writes it: a non-folder whose can-get-size query answers no. */
  predicate PassesSizeGuard(e: Entry) {
    !e.isDirectory && !e.canGetSize
  }

  function GuardedSizeWeight(e: Entry): (w: nat) {
    if PassesSizeGuard(e) then e.size else 0
  }

  /** Every folder of the selection reports its item count. */
  predicate AllItemCountsKnown(s: seq<Entry>) {
    forall i :: 0 <= i < |s| ==> (s[i].isDirectory ==> s[i].directoryItemCount.Some?)
  }

  /** Some non-folder of the selection passes the size guard. */
  predicate AnyPassesSizeGuard(s: seq<Entry>) {
    exists i :: 0 <= i < |s| && PassesSizeGuard(s[i])
  }

  lemma {:induction false} TotalAppend(s: seq<Entry>, e: Entry, w: Entry -> nat)
    ensures Total(s + [e], w) == Total(s, w) + w(e)
  {
    if s == [] {
      assert [e][1..] == [];
    } else {
      assert (s + [e])[1..] == s[1..] + [e];
      TotalAppend(s[1..], e, w);
    }
  }

  /** Every entry is either a folder or an other item, so the two counts cover the selection. */
  lemma {:induction false} CountsPartitionSelection(s: seq<Entry>)
    ensures Total(s, FolderWeight) + Total(s, NonFolderWeight) == |s|
  {
    if s != [] {
      CountsPartitionSelection(s[1..]);
    }
  }

  /** Each further entry raises exactly one of the two counts, by one. */
  lemma EachEntryCountedOnce(s: seq<Entry>, e: Entry)
    ensures Total(s + [e], FolderWeight) == Total(s, FolderWeight) + (if e.isDirectory then 1 else 0)
    ensures Total(s + [e], NonFolderWeight) == Total(s, NonFolderWeight) + (if e.isDirectory then 0 else 1)
  {
    TotalAppend(s, e, FolderWeight);
    TotalAppend(s, e, NonFolderWeight);
  }

  /** A summary whose name is present exactly when something was counted. */
  ghost predicate WellFormed(sm: Summary) {
    sm.firstItemName.Some? <==> sm.folderCount + sm.nonFolderCount > 0
  }

  /** What the pass over `selection` must produce, field by field. */
  function SummaryOf(selection: seq<Entry>): (sm: Summary)
    ensures WellFormed(sm)
    ensures sm.folderCount + sm.nonFolderCount == |selection|
  {
    CountsPartitionSelection(selection);
    Summary(
      folderCount := Total(selection, FolderWeight),
      folderItemCount := Total(selection, ItemCountWeight),
      folderItemCountKnown := AllItemCountsKnown(selection),
      nonFolderCount := Total(selection, NonFolderWeight),
      nonFolderSize := Total(selection, GuardedSizeWeight),
      nonFolderSizeKnown := AnyPassesSizeGuard(selection),
      firstItemName := if selection == [] then None else Some(selection[0].displayName))
  }

  // ---------------------------------------------------------------------------
  // The pass itself.
  // ---------------------------------------------------------------------------

  /**
   * The accumulation loop of the multi-selection summary. The item-count flag
   * starts true and is cleared for good by the first folder without a count;
   * the size flag starts false and is set by the first entry that passes the
   * size guard; the first name is taken once and never overwritten.
   */
  method Summarize(selection: seq<Entry>) returns (sm: Summary)
    ensures sm == SummaryOf(selection)
    ensures sm.folderCount + sm.nonFolderCount == |selection|
  {
    var folderItemCountKnown := true;
    var folderCount: nat := 0;
    var folderItemCount: nat := 0;
    var nonFolderCount: nat := 0;
    var nonFolderSizeKnown := false;
    var nonFolderSize: nat := 0;
    var firstItemName: Option<string> := None;

    var i := 0;
    while i < |selection|
      invariant 0 <= i <= |selection|
      invariant folderCount == Total(selection[..i], FolderWeight)
      invariant nonFolderCount == Total(selection[..i], NonFolderWeight)
      invariant folderItemCount == Total(selection[..i], ItemCountWeight)
      invariant nonFolderSize == Total(selection[..i], GuardedSizeWeight)
      invariant folderItemCountKnown <==> AllItemCountsKnown(selection[..i])
      invariant nonFolderSizeKnown <==> AnyPassesSizeGuard(selection[..i])
      invariant firstItemName == if i == 0 then None else Some(selection[0].displayName)
    {
      var file := selection[i];
      assert selection[..i + 1] == selection[..i] + [file];
      EachEntryCountedOnce(selection[..i], file);
      TotalAppend(selection[..i], file, ItemCountWeight);
      TotalAppend(selection[..i], file, GuardedSizeWeight);

      if file.isDirectory {
        folderCount := folderCount + 1;
        if file.directoryItemCount.Some? {
          folderItemCount := folderItemCount + file.directoryItemCount.value;
        } else {
          folderItemCountKnown := false;
        }
      } else {
        nonFolderCount := nonFolderCount + 1;
        if !file.canGetSize {
          nonFolderSizeKnown := true;
          nonFolderSize := nonFolderSize + file.size;
        }
      }

      if firstItemName == None {
        firstItemName := Some(file.displayName);
      }
      i := i + 1;
    }
    assert selection[..|selection|] == selection;
    sm := Summary(folderCount, folderItemCount, folderItemCountKnown,
                  nonFolderCount, nonFolderSize, nonFolderSizeKnown, firstItemName);
  }

  // ---------------------------------------------------------------------------
  // The status line.
  // ---------------------------------------------------------------------------

  function Quoted(name: string): (r: string) {
    "“" + name + "”"
  }

  predicate StartsWithQuote(s: string) {
    |s| > 0 && s[0] == '“'
  }

  /** The folder phrase; computed only when there is at least one folder. */
  function FolderCountPhrase(sm: Summary): (r: string)
    requires sm.folderCount != 0 && WellFormed(sm)
    ensures StartsWithQuote(r) <==> sm.folderCount == 1 && sm.nonFolderCount == 0
    ensures StartsWithQuote(r) ==> r == Quoted(sm.firstItemName.value) + " selected"
    ensures !StartsWithQuote(r) ==>
      r == Dec(sm.folderCount) + (if sm.folderCount == 1 then " folder selected" else " folders selected")
  {
    if sm.folderCount == 1 && sm.nonFolderCount == 0 then
      Quoted(sm.firstItemName.value) + " selected"
    else
      CountPhrase(sm.folderCount, " folder selected", " folders selected")
  }

  /** The parenthetical after the folder phrase; empty when some folder's count is unknown. */
  function FolderItemPhrase(sm: Summary): (r: string)
    requires sm.folderCount != 0
    ensures r == "" <==> !sm.folderItemCountKnown
    ensures sm.folderItemCountKnown ==>
      r == "(containing " + (if sm.folderCount > 1 then "a total of " else "") + Dec(sm.folderItemCount)
           + (if sm.folderItemCount == 1 then " item)" else " items)")
  {
    if !sm.folderItemCountKnown then
      ""
    else if sm.folderCount == 1 then
      "(containing " + CountPhrase(sm.folderItemCount, " item)", " items)")
    else
      "(containing a total of " + CountPhrase(sm.folderItemCount, " item)", " items)")
  }

  /** The phrase for the items that are not folders. */
  function NonFolderCountPhrase(sm: Summary): (r: string)
    requires sm.nonFolderCount != 0 && WellFormed(sm)
    ensures StartsWithQuote(r) <==> sm.folderCount == 0 && sm.nonFolderCount == 1
    ensures StartsWithQuote(r) ==> r == Quoted(sm.firstItemName.value) + " selected"
    ensures sm.folderCount == 0 && sm.nonFolderCount > 1 ==> r == Dec(sm.nonFolderCount) + " items selected"
    ensures sm.folderCount != 0 ==>
      r == Dec(sm.nonFolderCount) + (if sm.nonFolderCount == 1 then " other item selected" else " other items selected")
  {
    if sm.folderCount == 0 then
      if sm.nonFolderCount == 1 then
        Quoted(sm.firstItemName.value) + " selected"
      else
        CountPhrase(sm.nonFolderCount, " item selected", " items selected")
    else
      CountPhrase(sm.nonFolderCount, " other item selected", " other items selected")
  }

  /** The parenthetical after the other-items phrase; empty when no size is known. */
  function NonFolderSizePhrase(sm: Summary, formatSize: nat -> string): (r: string)
    requires sm.nonFolderCount != 0
    ensures r == "" <==> !sm.nonFolderSizeKnown
    ensures sm.nonFolderSizeKnown ==> r == "(" + formatSize(sm.nonFolderSize) + ")"
  {
    if sm.nonFolderSizeKnown then "(" + formatSize(sm.nonFolderSize) + ")" else ""
  }

  /**
   * The status line of the multi-selection page, None standing for NULL.
   * A quoted name opens it exactly when one entry was counted in total.
   */
  function StatusText(sm: Summary, formatSize: nat -> string): (r: Option<string>)
    requires WellFormed(sm)
    ensures r.None? <==> sm.folderCount == 0 && sm.nonFolderCount == 0
    ensures r.Some? ==> (StartsWithQuote(r.value) <==> sm.folderCount + sm.nonFolderCount == 1)
  {
    if sm.folderCount == 0 && sm.nonFolderCount == 0 then
      None
    else if sm.folderCount == 0 then
      Some(NonFolderCountPhrase(sm) + ", " + NonFolderSizePhrase(sm, formatSize))
    else if sm.nonFolderCount == 0 then
      Some(FolderCountPhrase(sm) + " " + FolderItemPhrase(sm))
    else
      Some(FolderCountPhrase(sm) + " " + FolderItemPhrase(sm) + ", "
           + NonFolderCountPhrase(sm) + " " + NonFolderSizePhrase(sm, formatSize))
  }

  /** The status line computed from a selection, as the multi-selection setup shows it. */
  function MultiSelectionStatus(selection: seq<Entry>, formatSize: nat -> string): (r: Option<string>)
    ensures r.None? <==> selection == []
    ensures r.Some? ==> (StartsWithQuote(r.value) <==> |selection| == 1)
  {
    StatusText(SummaryOf(selection), formatSize)
  }

  // ---------------------------------------------------------------------------
  // The wording, case by case.
  // ---------------------------------------------------------------------------

  /** Only folders: the folder phrase and its parenthetical, separated by a space that stays when the parenthetical is empty. */
  lemma FoldersOnlyWording(sm: Summary, formatSize: nat -> string)
    requires WellFormed(sm) && sm.folderCount > 0 && sm.nonFolderCount == 0
    ensures StatusText(sm, formatSize) == Some(
      (if sm.folderCount == 1 then Quoted(sm.firstItemName.value) + " selected"
       else Dec(sm.folderCount) + " folders selected")
      + " "
      + (if !sm.folderItemCountKnown then ""
         else "(containing " + (if sm.folderCount > 1 then "a total of " else "")
              + Dec(sm.folderItemCount) + (if sm.folderItemCount == 1 then " item)" else " items)")))
  {
  }

  /** Only other items: their phrase, a comma, and the size parenthetical (kept after the comma even when empty). */
  lemma NonFoldersOnlyWording(sm: Summary, formatSize: nat -> string)
    requires WellFormed(sm) && sm.folderCount == 0 && sm.nonFolderCount > 0
    ensures StatusText(sm, formatSize) == Some(
      (if sm.nonFolderCount == 1 then Quoted(sm.firstItemName.value) + " selected"
       else Dec(sm.nonFolderCount) + " items selected")
      + ", "
      + (if sm.nonFolderSizeKnown then "(" + formatSize(sm.nonFolderSize) + ")" else ""))
  {
  }

  /**
   * Both kinds: never a quoted name; the folders are counted, the rest use the
   * "other item(s)" wording, and both parentheticals keep their separators.
   */
  lemma MixedWording(sm: Summary, formatSize: nat -> string)
    requires WellFormed(sm) && sm.folderCount > 0 && sm.nonFolderCount > 0
    ensures StatusText(sm, formatSize) == Some(
      Dec(sm.folderCount) + (if sm.folderCount == 1 then " folder selected" else " folders selected")
      + " " + FolderItemPhrase(sm) + ", "
      + Dec(sm.nonFolderCount) + (if sm.nonFolderCount == 1 then " other item selected" else " other items selected")
      + " " + NonFolderSizePhrase(sm, formatSize))
    ensures !StartsWithQuote(StatusText(sm, formatSize).value)
  {
    assert FolderCountPhrase(sm) == Dec(sm.folderCount) + (if sm.folderCount == 1 then " folder selected" else " folders selected");
    var noun := if sm.nonFolderCount == 1 then " other item selected" else " other items selected";
    assert NonFolderCountPhrase(sm) == Dec(sm.nonFolderCount) + noun;
    var head := FolderCountPhrase(sm) + " " + FolderItemPhrase(sm) + ", ";
    assert head + (Dec(sm.nonFolderCount) + noun) == head + Dec(sm.nonFolderCount) + noun;
  }

  // ---------------------------------------------------------------------------
  // Properties of the pass over a selection.
  // ---------------------------------------------------------------------------

  /** The item-count flag is cleared exactly when some folder lacks a count, and known counts are summed regardless. */
  lemma {:induction false} ItemCountFlagIsSticky(selection: seq<Entry>, i: nat)
    requires i < |selection| && selection[i].isDirectory && selection[i].directoryItemCount.None?
    ensures !SummaryOf(selection).folderItemCountKnown
    ensures SummaryOf(selection).folderItemCount == SummaryOf(selection[..i]).folderItemCount
                                                    + SummaryOf(selection[i + 1..]).folderItemCount
  {
    TotalSplit(selection, i, ItemCountWeight);
  }

  lemma {:induction false} TotalSplit(s: seq<Entry>, i: nat, w: Entry -> nat)
    requires i < |s|
    ensures Total(s, w) == Total(s[..i], w) + w(s[i]) + Total(s[i + 1..], w)
  {
    if i > 0 {
      assert s[1..][..i - 1] == s[1..i];
      assert s[1..][i - 1..] == s[i..];
      assert s[1..][i - 1 + 1..] == s[i + 1..];
      TotalSplit(s[1..], i - 1, w);
      assert s[..i] == [s[0]] + s[1..i];
      assert s[..i][1..] == s[1..i];
    } else {
      assert s[1..] == s[i + 1..];
    }
  }

  /** Without a guarded entry the size is unknown and nothing is summed. */
  lemma {:induction false} NoGuardedEntryNoSize(selection: seq<Entry>)
    requires !AnyPassesSizeGuard(selection)
    ensures !SummaryOf(selection).nonFolderSizeKnown
    ensures SummaryOf(selection).nonFolderSize == 0
  {
    if selection != [] {
      assert !PassesSizeGuard(selection[0]);
      assert !AnyPassesSizeGuard(selection[1..]) by {
        forall j | 0 <= j < |selection[1..]|
          ensures !PassesSizeGuard(selection[1..][j])
        {
          assert selection[1..][j] == selection[j + 1];
        }
      }
      NoGuardedEntryNoSize(selection[1..]);
    }
  }

  /** Two or more entries, as the multi-selection page receives: the status is present and never opens with a quoted name. */
  lemma MultiSelectionNeverQuoted(selection: seq<Entry>, formatSize: nat -> string)
    requires |selection| > 1
    ensures MultiSelectionStatus(selection, formatSize).Some?
    ensures !StartsWithQuote(MultiSelectionStatus(selection, formatSize).value)
  {
  }

  /** One folder with a known count beside one other item that passes the size guard. */
  lemma {:induction false} FolderAndFileWording(folder: Entry, file: Entry, formatSize: nat -> string)
    requires folder.isDirectory && folder.directoryItemCount.Some?
    requires PassesSizeGuard(file)
    ensures MultiSelectionStatus([folder, file], formatSize) == Some(
      "1 folder selected" + " "
      + ("(containing " + Dec(folder.directoryItemCount.value)
         + (if folder.directoryItemCount.value == 1 then " item)" else " items)"))
      + ", " + "1 other item selected" + " " + ("(" + formatSize(file.size) + ")"))
  {
    var s := [folder, file];
    assert AnyPassesSizeGuard(s) by { assert PassesSizeGuard(s[1]); }
    assert AllItemCountsKnown(s);
    PairCounts(folder, file);
    PairPhrases(SummaryOf(s), formatSize);
  }

  /** The same pair when the other item's can-get-size query answers yes: no size, but the trailing space stays. */
  lemma {:induction false} FolderAndSizedFileWording(folder: Entry, file: Entry, formatSize: nat -> string)
    requires folder.isDirectory && folder.directoryItemCount.Some?
    requires !file.isDirectory && file.canGetSize
    ensures MultiSelectionStatus([folder, file], formatSize) == Some(
      "1 folder selected" + " "
      + ("(containing " + Dec(folder.directoryItemCount.value)
         + (if folder.directoryItemCount.value == 1 then " item)" else " items)"))
      + ", " + "1 other item selected" + " " + "")
  {
    var s := [folder, file];
    assert !AnyPassesSizeGuard(s) by {
      assert !PassesSizeGuard(s[0]) && !PassesSizeGuard(s[1]);
    }
    assert AllItemCountsKnown(s);
    PairCounts(folder, file);
    PairPhrases(SummaryOf(s), formatSize);
  }

  /** The four pieces of the status line when exactly one folder and one other item are counted. */
  lemma PairPhrases(sm: Summary, formatSize: nat -> string)
    requires WellFormed(sm) && sm.folderCount == 1 && sm.nonFolderCount == 1
    ensures FolderCountPhrase(sm) == "1 folder selected"
    ensures NonFolderCountPhrase(sm) == "1 other item selected"
    ensures sm.folderItemCountKnown ==> FolderItemPhrase(sm) == "(containing " + Dec(sm.folderItemCount)
                                        + (if sm.folderItemCount == 1 then " item)" else " items)")
  {
  }

  lemma TotalOfPair(a: Entry, b: Entry, w: Entry -> nat)
    ensures Total([a, b], w) == w(a) + w(b)
  {
    assert [a, b][1..] == [b];
    assert [b][1..] == [];
    assert Total([b], w) == w(b) + Total([], w);
  }

  /** The counts of a two-entry selection made of one folder and one other item. */
  lemma PairCounts(folder: Entry, file: Entry)
    requires folder.isDirectory && !file.isDirectory
    ensures SummaryOf([folder, file]).folderCount == 1
    ensures SummaryOf([folder, file]).nonFolderCount == 1
    ensures SummaryOf([folder, file]).folderItemCount == ItemCountWeight(folder)
    ensures SummaryOf([folder, file]).nonFolderSize == GuardedSizeWeight(file)
  {
    TotalOfPair(folder, file, FolderWeight);
    TotalOfPair(folder, file, NonFolderWeight);
    TotalOfPair(folder, file, ItemCountWeight);
    TotalOfPair(folder, file, GuardedSizeWeight);
  }
}
