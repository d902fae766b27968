/** The pipeline preferences: the "Skip" tag associations are stored as one
    comma-separated string and edited as a sorted list of names. */
module PipelinePrefs {
  import opened Text
  import Sorting

  /** The stored text of a selection of names: sorted and joined by commas. */
  function SkipMeaningText(names: seq<string>): string
  {
    Join(SortStrings(names), ",")
  }

  /** The list edited by the user, read back from the stored text: split at
      the commas and sorted. */
  function SkipMeaningList(text: string): (r: seq<string>)
    ensures |r| >= 1
    ensures Sorting.Sorted(r, StrLe)
    ensures multiset(r) == multiset(Split(text, ','))
    ensures forall k :: 0 <= k < |r| ==> ',' !in r[k]
  {
    SplitPartsFree(text, ',');
    var parts := Split(text, ',');
    var r := SortStrings(parts);
    assert multiset(r) == multiset(parts);
    forall k | 0 <= k < |r| ensures ',' !in r[k] {
      assert r[k] in multiset(parts);
    }
    r
  }

  /** Sorting a list that is already in order changes nothing. */
  lemma SortStringsSorted(xs: seq<string>)
    requires Sorting.Sorted(xs, StrLe)
    ensures SortStrings(xs) == xs
  {
    StrLeTotalOrder();
    Sorting.SortedUnique(SortStrings(xs), xs, StrLe);
  }

  /** Writing a selection and reading it back gives the selection in sorted
      order, when it is not empty and no name holds a comma. */
  lemma SkipMeaningRoundTrip(names: seq<string>)
    requires |names| >= 1
    requires forall k :: 0 <= k < |names| ==> ',' !in names[k]
    ensures SkipMeaningList(SkipMeaningText(names)) == SortStrings(names)
  {
    var sorted := SortStrings(names);
    assert multiset(sorted) == multiset(names);
    assert |sorted| == |multiset(sorted)| == |names|;
    forall k | 0 <= k < |sorted| ensures ',' !in sorted[k] {
      assert sorted[k] in multiset(names);
    }
    SplitJoin(sorted, ',');
    SortStringsSorted(sorted);
  }

  /** An empty selection is stored as the empty string, which reads back as
      one empty name rather than as no names. */
  lemma EmptySelectionReadsBackBlank()
    ensures SkipMeaningText([]) == ""
    ensures SkipMeaningList(SkipMeaningText([])) == [""]
  {
    assert Split("", ',') == [""];
    SortStringsSorted([""]);
  }

  /** `PipelinePreferences`: `skipMeaning` is the stored preference and
      `skipMeaningNames` the list the check-list editor shows. */
  class PipelinePreferences {
    var skipMeaning: string
    var skipMeaningNames: seq<string>
    var initialized: bool

    /** A fresh helper holding the stored preference `stored`, before
        `_initialize` has run. */
    constructor (stored: string)
      ensures skipMeaning == stored && skipMeaningNames == [] && !initialized
    {
      skipMeaning := stored;
      skipMeaningNames := [];
      initialized := false;
    }

    /** The change handler of the name list: the stored text follows the
        list only once the helper is initialised. */
    method SkipMeaningNamesChanged(names: seq<string>)
      modifies this`skipMeaning
      ensures initialized ==> skipMeaning == SkipMeaningText(names)
      ensures !initialized ==> skipMeaning == old(skipMeaning)
    {
      if initialized {
        skipMeaning := Join(SortStrings(names), ",");
      }
    }

    /** Assigning the name list, which fires its change handler. */
    method SetSkipMeaningNames(names: seq<string>)
      modifies this`skipMeaning, this`skipMeaningNames
      ensures skipMeaningNames == names
      ensures initialized ==> skipMeaning == SkipMeaningText(names)
      ensures !initialized ==> skipMeaning == old(skipMeaning)
    {
      skipMeaningNames := names;
      SkipMeaningNamesChanged(names);
    }

    /** `_initialize`: the name list is read from the stored text while the
        helper is still uninitialised, so the stored text is left as it is;
        then the helper is marked initialised. */
    method Initialize()
      requires !initialized
      modifies this`skipMeaning, this`skipMeaningNames, this`initialized
      ensures initialized
      ensures skipMeaning == old(skipMeaning)
      ensures skipMeaningNames == SkipMeaningList(skipMeaning)
    {
      SetSkipMeaningNames(SortStrings(Split(skipMeaning, ',')));
      initialized := true;
    }
  }

  /** After initialisation, an edit of the list stores text that the next
      `_initialize` reads back as the same list, sorted. */
  method EditThenReload(stored: string, names: seq<string>) returns (reloaded: seq<string>)
    requires |names| >= 1
    requires forall k :: 0 <= k < |names| ==> ',' !in names[k]
    ensures reloaded == SortStrings(names)
  {
    var prefs := new PipelinePreferences(stored);
    prefs.Initialize();
    prefs.SetSkipMeaningNames(names);
    var next := new PipelinePreferences(prefs.skipMeaning);
    next.Initialize();
    SkipMeaningRoundTrip(names);
    reloaded := next.skipMeaningNames;
  }
}
