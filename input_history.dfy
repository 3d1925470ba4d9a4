/**
 * The autocomplete histories of the input window: one most-recent-first list
 * per field (partners, deal names, remarks), deduplicated and capped, and the
 * case-insensitive suggestion filter over such a list.
 */
module InputHistory {
  import Text
  import opened Sequences

  /** How many entries a history keeps. */
  const MaxEntries: nat := 30

  /** The three fields that keep a history, named as the settings store names them. */
  datatype Field = Partners | DealNames | Remarks

  function Min(a: nat, b: nat): nat {
    if a < b then a else b
  }

  /** `history.filter(item => item !== value)`. */
  function Others(history: seq<string>, value: string): seq<string> {
    Filter(history, item => item != value)
  }

  /**
   * The list `saveToHistory` stores: `value` in front, its earlier copy
   * removed, cut to the first thirty entries. The entries after the first are
   * the leading ones of the other entries; only the tail of those is dropped.
   */
  function Push(history: seq<string>, value: string): (r: seq<string>)
    ensures 0 < |r| <= MaxEntries
    ensures r[0] == value && value !in r[1..]
    ensures |r| == Min(MaxEntries, |Others(history, value)| + 1)
    ensures r[1..] == Others(history, value)[..|r| - 1]
  {
    var updated := [value] + Others(history, value);
    var r := updated[..Min(MaxEntries, |updated|)];
    assert r[1..] == Others(history, value)[..|r| - 1];
    assert forall x :: x in r[1..] ==> x in Others(history, value);
    r
  }

  /** Saving the same value twice in a row gives the same list as saving it once. */
  lemma PushIdempotent(history: seq<string>, value: string)
    ensures Push(Push(history, value), value) == Push(history, value)
  {
    var r := Push(history, value);
    var rest := r[1..];
    assert r == [value] + rest;
    assert Others(r, value) == Others(rest, value) by {
      assert r[1..] == rest;
    }
    FilterAllPass(rest, item => item != value);
  }

  /** The entries other than the saved value keep their relative order. */
  lemma PushKeepsOrder(history: seq<string>, value: string)
    ensures IsSubsequence(Push(history, value)[1..], history)
  {
    var r := Push(history, value);
    FilterIsSubsequence(history, item => item != value);
    PrefixOfSubsequence(Others(history, value), history, |r| - 1);
  }

  /** A history without duplicates stays without duplicates. */
  lemma PushNoDuplicates(history: seq<string>, value: string)
    requires NoDuplicates(history)
    ensures NoDuplicates(Push(history, value))
  {
    var r := Push(history, value);
    FilterNoDuplicates(history, item => item != value);
    forall i, j | 0 <= i < j < |r| ensures r[i] != r[j] {
      if i == 0 {
        assert r[j] in r[1..];
      } else {
        assert r[i] == Others(history, value)[i - 1] && r[j] == Others(history, value)[j - 1];
      }
    }
  }

  /** While fewer than thirty other entries exist, saving drops nothing. */
  lemma PushKeepsAllWhileRoom(history: seq<string>, value: string)
    requires |Others(history, value)| < MaxEntries
    ensures forall x :: x in history ==> x in Push(history, value)
  {
    var r := Push(history, value);
    assert r[1..] == Others(history, value);
    forall x | x in history ensures x in r {
      if x != value {
        assert x in r[1..];
      }
    }
  }

  /** An entry matches the typed text when its lower-case form contains the lower-case text. */
  predicate Matches(entry: string, input: string) {
    Text.ContainsIgnoringCase(entry, input)
  }

  /** `history.filter(p => p.toLowerCase().includes(input.toLowerCase()))`. */
  function Suggestions(history: seq<string>, input: string): (r: seq<string>)
    ensures forall x :: x in r <==> x in history && Matches(x, input)
  {
    Filter(history, entry => Matches(entry, input))
  }

  /** Suggestions come in history order. */
  lemma SuggestionsInHistoryOrder(history: seq<string>, input: string)
    ensures IsSubsequence(Suggestions(history, input), history)
  {
    FilterIsSubsequence(history, entry => Matches(entry, input));
  }

  /** Typed text that differs only in letter case gives the same suggestions. */
  lemma SuggestionsIgnoreCase(history: seq<string>, a: string, b: string)
    requires Text.Lower(a) == Text.Lower(b)
    ensures Suggestions(history, a) == Suggestions(history, b)
  {
    FilterSameTest(history, entry => Matches(entry, a), entry => Matches(entry, b));
  }

  /** Whether the change handler shows the suggestion list. */
  predicate ShowSuggestions(history: seq<string>, input: string) {
    |input| > 0 && |Suggestions(history, input)| > 0
  }

  /** Suggestions are shown exactly when something is typed and some entry matches it. */
  lemma ShowSuggestionsIff(history: seq<string>, input: string)
    ensures ShowSuggestions(history, input) <==>
            input != "" && exists i :: 0 <= i < |history| && Matches(history[i], input)
  {
    var r := Suggestions(history, input);
    if |r| > 0 {
      assert r[0] in r;
    }
    if i :| 0 <= i < |history| && Matches(history[i], input) {
      assert history[i] in r;
    }
  }
}
