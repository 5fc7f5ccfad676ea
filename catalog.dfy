/** The values the plant selection screen works on, and the pure
    transformations its handlers apply to them: the environment filter,
    the page merge and the environment list with its synthetic entry. */
module PlantCatalog {

  /** How often a plant is watered; `times` is a JavaScript number. */
  datatype Frequency = Frequency(times: real, repeatEvery: string)

  /** A plant record as the catalog returns it. */
  datatype Plant = Plant(
    id: string,
    name: string,
    about: string,
    waterTips: string,
    photo: string,
    environments: seq<string>,
    frequency: Frequency)

  /** An environment a plant can be placed in, used as a filter facet. */
  datatype Environment = Environment(key: string, title: string)

  /** The key of the synthetic catch-all environment. */
  const AllKey: string := "all"

  /** The synthetic entry put in front of the fetched environments. */
  const AllEnvironment: Environment := Environment(AllKey, "Todos")

  // ---------------------------------------------------------------------
  // Order-preserving subsequences
  // ---------------------------------------------------------------------

  /** `a` can be obtained from `b` by deleting elements, keeping the
      order of the rest. */
  ghost predicate IsSubsequence<T>(a: seq<T>, b: seq<T>)
    decreases |b|
  {
    if b == [] then a == []
    else (a != [] && a[0] == b[0] && IsSubsequence(a[1..], b[1..]))
         || IsSubsequence(a, b[1..])
  }

  lemma {:induction false} SubsequenceReflexive<T>(s: seq<T>)
    ensures IsSubsequence(s, s)
    decreases |s|
  {
    if s != [] {
      SubsequenceReflexive(s[1..]);
    }
  }

  /** Appending the same suffix to both sides keeps a subsequence a
      subsequence. */
  lemma {:induction false} SubsequenceAppend<T>(a: seq<T>, b: seq<T>, c: seq<T>)
    requires IsSubsequence(a, b)
    ensures IsSubsequence(a + c, b + c)
    decreases |b|
  {
    if b == [] {
      assert a + c == c && b + c == c;
      SubsequenceReflexive(c);
    } else {
      assert (b + c)[0] == b[0] && (b + c)[1..] == b[1..] + c;
      if a != [] && a[0] == b[0] && IsSubsequence(a[1..], b[1..]) {
        SubsequenceAppend(a[1..], b[1..], c);
        assert (a + c)[0] == a[0] && (a + c)[1..] == a[1..] + c;
      } else {
        SubsequenceAppend(a, b[1..], c);
      }
    }
  }

  // ---------------------------------------------------------------------
  // Environment filter
  // ---------------------------------------------------------------------

  /** The plants whose environments include `key`, in their original
      order (`plants.filter(plant => plant.environments.includes(key))`). */
  function FilterByEnvironment(plants: seq<Plant>, key: string): (r: seq<Plant>)
    ensures |r| <= |plants|
    ensures forall i :: 0 <= i < |r| ==> key in r[i].environments
    ensures forall p :: p in r ==> p in plants
    ensures forall p :: p in plants && key in p.environments ==> p in r
  {
    if plants == [] then []
    else if key in plants[0].environments then [plants[0]] + FilterByEnvironment(plants[1..], key)
    else FilterByEnvironment(plants[1..], key)
  }

  /** The filter keeps its survivors in the order they had. */
  lemma {:induction false} FilterIsSubsequence(plants: seq<Plant>, key: string)
    ensures IsSubsequence(FilterByEnvironment(plants, key), plants)
    decreases |plants|
  {
    if plants != [] {
      FilterIsSubsequence(plants[1..], key);
      var r := FilterByEnvironment(plants, key);
      if key in plants[0].environments {
        assert r[0] == plants[0] && r[1..] == FilterByEnvironment(plants[1..], key);
      }
    }
  }

  /** The filter keeps every qualifying plant as many times as it occurs,
      and no other plant at all. */
  lemma {:induction false} FilterCount(plants: seq<Plant>, key: string, p: Plant)
    ensures multiset(FilterByEnvironment(plants, key))[p]
            == if key in p.environments then multiset(plants)[p] else 0
    decreases |plants|
  {
    if plants != [] {
      FilterCount(plants[1..], key, p);
      assert plants == [plants[0]] + plants[1..];
      assert multiset(plants) == multiset([plants[0]]) + multiset(plants[1..]);
    }
  }

  /** Filtering a concatenation filters each part. */
  lemma {:induction false} FilterConcat(a: seq<Plant>, b: seq<Plant>, key: string)
    ensures FilterByEnvironment(a + b, key)
            == FilterByEnvironment(a, key) + FilterByEnvironment(b, key)
    decreases |a|
  {
    if a == [] {
      assert a + b == b;
    } else {
      assert (a + b)[0] == a[0] && (a + b)[1..] == a[1..] + b;
      FilterConcat(a[1..], b, key);
    }
  }

  /** When every plant qualifies, the filter is the identity. */
  lemma {:induction false} FilterKeepsAllQualifying(plants: seq<Plant>, key: string)
    requires forall i :: 0 <= i < |plants| ==> key in plants[i].environments
    ensures FilterByEnvironment(plants, key) == plants
    decreases |plants|
  {
    if plants != [] {
      FilterKeepsAllQualifying(plants[1..], key);
      assert [plants[0]] + plants[1..] == plants;
    }
  }

  /** What the plant list shows for a selected environment key: the whole
      list for the catch-all key, the filtered list otherwise. */
  function Visible(plants: seq<Plant>, key: string): (r: seq<Plant>)
    ensures key == AllKey ==> r == plants
    ensures key != AllKey ==> forall i :: 0 <= i < |r| ==> key in r[i].environments
    ensures key != AllKey ==> forall p :: p in plants && key in p.environments ==> p in r
    ensures forall p :: p in r ==> p in plants
  {
    if key == AllKey then plants else FilterByEnvironment(plants, key)
  }

  /** Whatever the selection, the visible list is an order-preserving
      subsequence of the full list. */
  lemma VisibleIsSubsequence(plants: seq<Plant>, key: string)
    ensures IsSubsequence(Visible(plants, key), plants)
  {
    if key == AllKey {
      SubsequenceReflexive(plants);
    } else {
      FilterIsSubsequence(plants, key);
    }
  }

  // ---------------------------------------------------------------------
  // Page merge
  // ---------------------------------------------------------------------

  /** The list after a page of `data` arrives for request `page`: pages
      after the first are appended, the first page replaces the list. */
  function MergePage(current: seq<Plant>, page: int, data: seq<Plant>): (r: seq<Plant>)
    ensures page > 1 ==> |r| == |current| + |data| && r[..|current|] == current
    ensures page > 1 ==> r[|current|..] == data
    ensures page <= 1 ==> r == data
  {
    if page > 1 then current + data else data
  }

  /** Concatenation of a sequence of pages. */
  function Flatten(pages: seq<seq<Plant>>): seq<Plant>
    decreases |pages|
  {
    if pages == [] then [] else pages[0] + Flatten(pages[1..])
  }

  /** The list after the pages arrive one after another, the first of
      them for request number `first`, the next for `first + 1`, ... */
  function LoadPages(current: seq<Plant>, first: int, pages: seq<seq<Plant>>): seq<Plant>
    decreases |pages|
  {
    if pages == [] then current
    else LoadPages(MergePage(current, first, pages[0]), first + 1, pages[1..])
  }

  /** Pages numbered from 2 on are appended to what is already there. */
  lemma {:induction false} LoadLaterPages(current: seq<Plant>, first: int, pages: seq<seq<Plant>>)
    requires first > 1
    ensures LoadPages(current, first, pages) == current + Flatten(pages)
    decreases |pages|
  {
    if pages != [] {
      LoadLaterPages(current + pages[0], first + 1, pages[1..]);
      assert current + pages[0] + Flatten(pages[1..]) == current + (pages[0] + Flatten(pages[1..]));
    }
  }

  /** Pages 1, 2, ..., n arriving in order leave exactly their
      concatenation, whatever the list held before. */
  lemma LoadPagesFromFirst(current: seq<Plant>, pages: seq<seq<Plant>>)
    requires pages != []
    ensures LoadPages(current, 1, pages) == Flatten(pages)
  {
    LoadLaterPages(pages[0], 2, pages[1..]);
  }

  /** Merging an unfiltered page into the filter of the full list,
      whether it is appended (a page above 1) or replaces it (page 1),
      agrees with filtering the merged full list when nothing in the page
      would be filtered out: under the catch-all key, or when every plant
      of the page lists the selected environment. */
  lemma MergeKeepsSelection(plants: seq<Plant>, key: string, page: int, data: seq<Plant>)
    requires key == AllKey || forall i :: 0 <= i < |data| ==> key in data[i].environments
    ensures MergePage(Visible(plants, key), page, data) == Visible(MergePage(plants, page, data), key)
  {
    if key != AllKey {
      FilterKeepsAllQualifying(data, key);
      if page > 1 {
        FilterConcat(plants, data, key);
      }
    }
  }

  /** Conversely, one plant of the page that lacks the selected
      environment is enough to make the page merged into the filter of
      the full list differ from the filter of the merged full list, for an
      appended page and for a replacing one alike: `data[j]` is in the
      former and not in the latter. */
  lemma MergeBreaksSelection(plants: seq<Plant>, key: string, page: int, data: seq<Plant>, j: nat)
    requires key != AllKey && j < |data| && key !in data[j].environments
    ensures MergePage(Visible(plants, key), page, data) != Visible(MergePage(plants, page, data), key)
  {
  }

  // ---------------------------------------------------------------------
  // Environment list
  // ---------------------------------------------------------------------

  /** The environment list shown as filter buttons: the synthetic
      catch-all entry, then the fetched environments in their order. */
  function WithAllEntry(fetched: seq<Environment>): (r: seq<Environment>)
    ensures |r| == |fetched| + 1
    ensures r[0].key == AllKey && r[0].title == "Todos"
    ensures forall i :: 0 <= i < |fetched| ==> r[i + 1] == fetched[i]
  {
    [AllEnvironment] + fetched
  }
}
