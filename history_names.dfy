/**
  The dashboard's side of the history files: `load_histories` reads every
  `*_history.csv` file and names its table after the file's stem, with
  `"_history"` removed and underscores turned back into spaces.
*/
module HistoryNames {
  import opened Wrappers
  import opened Strings
  import opened Orchestrator

  /** `fp.stem.replace("_history", "").replace("_", " ")`. */
  function DisplayName(stem: string): string {
    ReplaceChar(ReplaceAll(stem, "_history", ""), '_', " ")
  }

  /** The files `DATA_DIR.glob("*_history.csv")` yields, by name. */
  predicate IsHistoryFile(name: string) {
    EndsWith(name, "_history.csv")
  }

  /** `Path(name).stem` for a history file: the name without its `.csv` suffix. */
  function Stem(name: string): (r: string)
    requires IsHistoryFile(name)
    ensures r + ".csv" == name
    ensures EndsWith(r, "_history")
  {
    assert name[|name| - 4..] == name[|name| - 12..][8..];
    assert name[..|name| - 4][|name| - 12..] == name[|name| - 12..][..8];
    name[..|name| - 4]
  }

  // ----- The round trip with the writer's sanitiser -----

  /** `"_history"` has no border: no proper prefix of it is also a suffix of it. */
  lemma NoOccurrenceAcrossTheEnd(x: string, i: int)
    requires 0 <= i < |x|
    requires !HasSubstring(x, "_history")
    ensures !OccursAt(x + "_history", "_history", i)
  {
    var s := x + "_history";
    if i + 8 <= |x| {
      assert s[i..i + 8] == x[i..i + 8];
      assert !OccursAt(x, "_history", i);
    } else {
      var k := |x| - i;
      assert s[i..i + 8][k] == '_';
      assert "_history"[k] != '_';
    }
  }

  /** Removing the one trailing `"_history"` of a stem whose name part has none. */
  lemma DropHistorySuffix(x: string)
    requires !HasSubstring(x, "_history")
    ensures ReplaceAll(x + "_history", "_history", "") == x
  {
    forall i | 0 <= i < |x| ensures !OccursAt(x + "_history", "_history", i) {
      NoOccurrenceAcrossTheEnd(x, i);
    }
    ReplaceAllTrailing(x, "_history", "");
    assert x + "" == x;
  }

  /** Spaces to underscores, bars dropped, underscores back to spaces: only the bars are gone. */
  lemma {:induction false} UnderscoreRoundTrip(s: string)
    requires '_' !in s
    ensures ReplaceChar(ReplaceChar(ReplaceChar(s, ' ', "_"), '|', ""), '_', " ") == ReplaceChar(s, '|', "")
  {
    if s != [] {
      UnderscoreRoundTrip(s[1..]);
      var a := if s[0] == ' ' then "_" else [s[0]];
      var b := if s[0] == '|' then [] else a;
      var c := if s[0] == ' ' then " " else b;
      ReplaceCharAppend(a, ReplaceChar(s[1..], ' ', "_"), '|', "");
      ReplaceCharAppend(b, ReplaceChar(ReplaceChar(s[1..], ' ', "_"), '|', ""), '_', " ");
      if s[0] == ' ' {
        assert ReplaceChar(a, '|', "") == "_";
        assert ReplaceChar("_", '_', " ") == " ";
      } else if s[0] == '|' {
        assert ReplaceChar(a, '|', "") == [];
      } else {
        assert ReplaceChar(a, '|', "") == [s[0]];
        assert ReplaceChar([s[0]], '_', " ") == [s[0]];
      }
    }
  }

  /**
    The file the writer saves for `item` under `prefix` comes back with the
    prefix's underscores turned into spaces and the item's bars deleted, as long
    as the item has no underscore or slash and its sanitised name no `"_history"`.
  */
  lemma DisplayNameOfSaved(prefix: string, item: string)
    requires '_' !in item && '/' !in item
    requires !HasSubstring(prefix + SafeName(item), "_history")
    ensures var file := prefix + SafeName(item) + "_history.csv";
            && IsHistoryFile(file)
            && DisplayName(Stem(file)) == ReplaceChar(prefix, '_', " ") + ReplaceChar(item, '|', "")
  {
    var a := ReplaceChar(item, ' ', "_");
    var b := ReplaceChar(a, '|', "");
    ReplaceCharMembers(item, ' ', "_");
    ReplaceCharMembers(a, '|', "");
    ReplaceCharAbsent(b, '/', "-");
    var file := prefix + SafeName(item) + "_history.csv";
    assert file == (prefix + SafeName(item) + "_history") + ".csv";
    assert Stem(file) == (prefix + SafeName(item)) + "_history";
    DropHistorySuffix(prefix + SafeName(item));
    ReplaceCharAppend(prefix, SafeName(item), '_', " ");
    UnderscoreRoundTrip(item);
  }

  /** Every file of `main()`'s first catalog is one the dashboard's glob picks up. */
  lemma SavedFileIsHistoryFile(prefix: string, item: string)
    ensures IsHistoryFile(prefix + SafeName(item) + "_history.csv")
  {
  }

  // ----- load_histories -----

  /**
    The tables `load_histories` keeps after reading the history files among
    `files`, in directory order: each under its display name, a later file
    replacing an earlier one of the same name, unreadable files skipped.
  */
  function Histories<T>(files: seq<string>, read: string -> Option<T>): map<string, T>
    decreases |files|
  {
    if files == [] then map[]
    else
      var before := Histories(files[..|files| - 1], read);
      var f := files[|files| - 1];
      if IsHistoryFile(f) && read(f).Some? then before[DisplayName(Stem(f)) := read(f).value] else before
  }

  /** A file of the listing that yields the table named `name`. */
  predicate Provides<T>(files: seq<string>, read: string -> Option<T>, i: int, name: string) {
    0 <= i < |files| && IsHistoryFile(files[i]) && read(files[i]).Some? && DisplayName(Stem(files[i])) == name
  }

  /** A name carried by a readable history file of the listing has a table. */
  lemma {:induction false} ProvidedIsLoaded<T>(files: seq<string>, read: string -> Option<T>, i: int, name: string)
    requires Provides(files, read, i, name)
    ensures name in Histories(files, read)
  {
    var init := files[..|files| - 1];
    if i < |files| - 1 {
      assert init[i] == files[i];
      ProvidedIsLoaded(init, read, i, name);
    }
  }

  /** Every name that has a table is carried by a readable history file of the listing. */
  lemma {:induction false} LoadedIsProvided<T>(files: seq<string>, read: string -> Option<T>, name: string)
    returns (i: int)
    requires name in Histories(files, read)
    ensures Provides(files, read, i, name)
  {
    var init := files[..|files| - 1];
    var f := files[|files| - 1];
    if IsHistoryFile(f) && read(f).Some? && DisplayName(Stem(f)) == name {
      i := |files| - 1;
    } else {
      i := LoadedIsProvided(init, read, name);
      assert init[i] == files[i];
    }
  }

  /** The table under a name is the one of the last readable history file that carries it. */
  lemma {:induction false} HistoriesLastWins<T>(files: seq<string>, read: string -> Option<T>, i: int, name: string)
    requires Provides(files, read, i, name)
    requires forall j :: i < j < |files| ==> !Provides(files, read, j, name)
    ensures name in Histories(files, read) && Histories(files, read)[name] == read(files[i]).value
  {
    var init := files[..|files| - 1];
    if i < |files| - 1 {
      assert init[i] == files[i];
      forall j | i < j < |init| ensures !Provides(init, read, j, name) {
        assert init[j] == files[j];
        assert !Provides(files, read, j, name);
      }
      HistoriesLastWins(init, read, i, name);
      assert !Provides(files, read, |files| - 1, name);
    }
  }

  /** `load_histories()`: the loop over the history files of the listing, in its order. */
  method LoadHistories<T>(files: seq<string>, read: string -> Option<T>) returns (dfs: map<string, T>)
    ensures dfs == Histories(files, read)
  {
    dfs := map[];
    var i := 0;
    while i < |files|
      invariant 0 <= i <= |files|
      invariant dfs == Histories(files[..i], read)
    {
      var fp := files[i];
      assert files[..i + 1][..i] == files[..i];
      if IsHistoryFile(fp) {
        var df := read(fp);
        if df.Some? {
          dfs := dfs[DisplayName(Stem(fp)) := df.value];
        }
      }
      i := i + 1;
    }
    assert files[..i] == files;
  }
}
