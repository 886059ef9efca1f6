/** The batch loop shared by every categoriser (lib/ai-categorize.ts and
    NeuronNook/lib/ai-categorize.ts): the items are taken five at a time,
    each item of a batch is categorised (a failure gives a fallback), and
    the batch's results are written into a map keyed by item id, in order. */
module Batching {
  import opened Wrappers

  const BatchSize := 5

  /** A categorisation. The category is whatever the model answered, and
      may be missing from a Gemini answer. */
  datatype Categorization = Categorization(category: Option<string>, confidence: real, reasoning: string)

  datatype EmailItem = EmailItem(id: string, from: string, subject: string, snippet: string)

  datatype FileItem = FileItem(id: string, name: string, mimeType: string)

  function EmailKey(e: EmailItem): string { e.id }

  function FileKey(f: FileItem): string { f.id }

  function Min(a: int, b: int): int { if a < b then a else b }

  /** One item's result: the categoriser's answer, or `fallback` when it
      throws (`None`). */
  function Outcome<T>(categorize: T -> Option<Categorization>, fallback: Categorization, x: T): (c: Categorization)
    ensures categorize(x).None? ==> c == fallback
    ensures categorize(x).Some? ==> c == categorize(x).value
  {
    categorize(x).GetOr(fallback)
  }

  /** The map after setting every item's result in order: a later item with
      the same id overwrites an earlier one. */
  function ResultsOf<T>(items: seq<T>, id: T -> string, categorize: T -> Option<Categorization>,
                        fallback: Categorization): map<string, Categorization>
    decreases |items|
  {
    if items == [] then map[]
    else
      var last := items[|items| - 1];
      ResultsOf(items[..|items| - 1], id, categorize, fallback)[id(last) := Outcome(categorize, fallback, last)]
  }

  /** The ids of the items. */
  function Ids<T>(items: seq<T>, id: T -> string): set<string> {
    set k | 0 <= k < |items| :: id(items[k])
  }

  /** The map has one key per distinct id and no other. */
  lemma {:induction false} ResultsKeys<T>(items: seq<T>, id: T -> string, categorize: T -> Option<Categorization>,
                                          fallback: Categorization)
    ensures ResultsOf(items, id, categorize, fallback).Keys == Ids(items, id)
    decreases |items|
  {
    if items != [] {
      var init := items[..|items| - 1];
      ResultsKeys(init, id, categorize, fallback);
      forall x | x in Ids(items, id) ensures x in Ids(init, id) + {id(items[|items| - 1])} {
        var k :| 0 <= k < |items| && id(items[k]) == x;
        if k < |items| - 1 {
          assert init[k] == items[k];
        }
      }
      forall x | x in Ids(init, id) ensures x in Ids(items, id) {
        var k :| 0 <= k < |init| && id(init[k]) == x;
        assert items[k] == init[k];
      }
    }
  }

  /** An id maps to the result of the last item carrying it. */
  lemma {:induction false} ResultsLastWins<T>(items: seq<T>, id: T -> string, categorize: T -> Option<Categorization>,
                                              fallback: Categorization, j: nat)
    requires j < |items|
    requires forall l :: j < l < |items| ==> id(items[l]) != id(items[j])
    ensures id(items[j]) in ResultsOf(items, id, categorize, fallback)
    ensures ResultsOf(items, id, categorize, fallback)[id(items[j])] == Outcome(categorize, fallback, items[j])
    decreases |items|
  {
    if j < |items| - 1 {
      var init := items[..|items| - 1];
      assert init[j] == items[j];
      ResultsLastWins(init, id, categorize, fallback, j);
    }
  }

  /** The loop itself: `i` steps by five, each batch's outcomes are
      gathered (as `Promise.all` does, in batch order) and then set into
      the map one by one. */
  method CategorizeInBatches<T>(items: seq<T>, id: T -> string, categorize: T -> Option<Categorization>,
                                fallback: Categorization)
    returns (results: map<string, Categorization>)
    ensures results == ResultsOf(items, id, categorize, fallback)
    ensures results.Keys == Ids(items, id)
  {
    results := map[];
    var i := 0;
    while i < |items|
      invariant 0 <= i <= |items|
      invariant results == ResultsOf(items[..i], id, categorize, fallback)
    {
      var batch := items[i..Min(i + BatchSize, |items|)];
      var outcomes := seq(|batch|, k requires 0 <= k < |batch| => Outcome(categorize, fallback, batch[k]));
      var j := 0;
      while j < |batch|
        invariant 0 <= j <= |batch|
        invariant results == ResultsOf(items[..i + j], id, categorize, fallback)
      {
        assert items[..i + j + 1][..i + j] == items[..i + j];
        assert items[..i + j + 1][i + j] == batch[j];
        results := results[id(batch[j]) := outcomes[j]];
        j := j + 1;
      }
      i := i + |batch|;
    }
    assert items[..i] == items;
    ResultsKeys(items, id, categorize, fallback);
  }
}
