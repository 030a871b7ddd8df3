/** The accent-insensitive search of the list screens: with no text the
    whole list is shown, otherwise the entries whose folded `nome` contains
    the folded text, in list order. The fold (NFD normalisation, removal of
    combining marks, lower-casing) is a parameter. */
module Search {
  import opened Seqs

  /** `sub` occurs in `s` starting at index `i`. */
  predicate OccursAt(s: string, sub: string, i: nat)
  {
    i + |sub| <= |s| && s[i..i + |sub|] == sub
  }

  /** `s.includes(sub)`. */
  predicate Contains(s: string, sub: string)
  {
    exists i: nat | i <= |s| :: OccursAt(s, sub, i)
  }

  /** `(item) => fold(item.nome).includes(fold(text))`. */
  function Matches<T>(name: T -> string, fold: string -> string, text: string): T -> bool
  {
    (x: T) => Contains(fold(name(x)), fold(text))
  }

  /** `handleSearch(text)`'s new filtered list: every matching entry as
      many times as the list holds it, and nothing else. */
  function Search<T(!new)>(items: seq<T>, name: T -> string, fold: string -> string, text: string): (r: seq<T>)
    ensures text == "" ==> r == items
    ensures text != "" ==> forall x :: x in r <==> x in items && Contains(fold(name(x)), fold(text))
    ensures text != "" ==> forall x ::
      multiset(r)[x] == if Contains(fold(name(x)), fold(text)) then multiset(items)[x] else 0
  {
    if text == "" then items
    else
      FilterCounts(items, Matches(name, fold, text));
      Filter(items, Matches(name, fold, text))
  }

  /** The result keeps the list's order. */
  lemma SearchKeepsOrder<T(!new)>(items: seq<T>, name: T -> string, fold: string -> string, text: string)
    ensures SubsequenceOf(Search(items, name, fold, text), items)
  {
    if text == "" {
      SubsequenceOfSelf(items);
    } else {
      FilterIsSubsequence(items, Matches(name, fold, text));
    }
  }

  /** Searching the result again with the same text changes nothing. */
  lemma SearchIdempotent<T(!new)>(items: seq<T>, name: T -> string, fold: string -> string, text: string)
    ensures Search(Search(items, name, fold, text), name, fold, text) == Search(items, name, fold, text)
  {
    if text != "" {
      FilterNarrow(items, Matches(name, fold, text), Matches(name, fold, text));
    }
  }

  /** A text that folds to nothing (only combining marks, say) matches
      every entry. */
  lemma FoldedEmptyKeepsAll<T(!new)>(items: seq<T>, name: T -> string, fold: string -> string, text: string)
    requires fold(text) == ""
    ensures Search(items, name, fold, text) == items
  {
    if text != "" {
      forall i | 0 <= i < |items| ensures Matches(name, fold, text)(items[i]) {
        assert OccursAt(fold(name(items[i])), "", 0);
      }
      FilterKeepsAll(items, Matches(name, fold, text));
    }
  }

  /** A substring of a substring is a substring. */
  lemma ContainsTransitive(s: string, mid: string, sub: string)
    requires Contains(s, mid) && Contains(mid, sub)
    ensures Contains(s, sub)
  {
    var i: nat :| i <= |s| && OccursAt(s, mid, i);
    var j: nat :| j <= |mid| && OccursAt(mid, sub, j);
    assert i + |mid| <= |s| && s[i..i + |mid|] == mid;
    assert j + |sub| <= |mid| && mid[j..j + |sub|] == sub;
    forall k | 0 <= k < |sub| ensures s[i + j + k] == sub[k] {
      assert mid[j + k] == sub[k];
      assert s[i + (j + k)] == mid[j + k];
    }
    assert s[i + j..i + j + |sub|] == sub;
    assert OccursAt(s, sub, i + j);
  }

  /** Typing more narrows the list: when the folded longer text contains the
      folded shorter one, the longer search keeps a subsequence of what the
      shorter search keeps. */
  lemma LongerTextNarrows<T(!new)>(items: seq<T>, name: T -> string, fold: string -> string, shorter: string, longer: string)
    requires shorter != "" && longer != "" && Contains(fold(longer), fold(shorter))
    ensures SubsequenceOf(Search(items, name, fold, longer), Search(items, name, fold, shorter))
  {
    forall x | Matches(name, fold, longer)(x) ensures Matches(name, fold, shorter)(x) {
      ContainsTransitive(fold(name(x)), fold(longer), fold(shorter));
    }
    FilterNarrowIsSubsequence(items, Matches(name, fold, shorter), Matches(name, fold, longer));
  }
}
