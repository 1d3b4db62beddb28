/** Recent searches (`src/context/SearchContext.jsx`): a most-recent-first
    list in which each dish id appears at most once. */
module SearchHistory {
  import opened Common

  /** A remembered dish. Only `id` matters to the list discipline; `searchedAt`
      is the clock reading when it was added. */
  datatype Entry = Entry(id: Option<string>, dishName: string, searchedAt: Option<int>)

  /** The filter test `item.id !== id`. */
  function OtherId(id: Option<string>): Entry -> bool {
    (e: Entry) => e.id != id
  }

  /** `removeSearch` */
  function RemoveSearch(entries: seq<Entry>, id: Option<string>): (r: seq<Entry>)
    ensures |r| <= |entries|
    ensures forall e :: e in r <==> e in entries && e.id != id
  {
    Filter(entries, OtherId(id))
  }

  /** `addSearch`: the dish, stamped with `now`, goes in front of every entry
      with a different id. */
  function AddSearch(entries: seq<Entry>, dish: Entry, now: int): (r: seq<Entry>)
    ensures |r| > 0 && r[0].id == dish.id && r[0].searchedAt == Some(now)
    ensures r[0] == dish.(searchedAt := Some(now))
  {
    [dish.(searchedAt := Some(now))] + RemoveSearch(entries, dish.id)
  }

  /** `clearAll` */
  function ClearAll(): (r: seq<Entry>)
    ensures |r| == 0
  {
    []
  }

  /** Ids are unique in the list. */
  predicate DistinctIds(entries: seq<Entry>) {
    forall i, j :: 0 <= i < j < |entries| ==> entries[i].id != entries[j].id
  }

  /** `removeSearch` drops every entry with that id and keeps every other one. */
  lemma RemoveSearchMeaning(entries: seq<Entry>, id: Option<string>)
    ensures forall i :: 0 <= i < |RemoveSearch(entries, id)| ==> RemoveSearch(entries, id)[i].id != id
    ensures forall i :: 0 <= i < |entries| && entries[i].id != id ==> entries[i] in RemoveSearch(entries, id)
  {
  }

  /** `removeSearch` goes entry by entry: one entry survives exactly when
      its id differs, and removing from a joined list joins the two results,
      so the survivors keep their relative order. */
  lemma RemoveSearchOrder(a: seq<Entry>, b: seq<Entry>, e: Entry, id: Option<string>)
    ensures RemoveSearch([e], id) == if e.id != id then [e] else []
    ensures RemoveSearch(a + b, id) == RemoveSearch(a, id) + RemoveSearch(b, id)
  {
    FilterSingle(e, OtherId(id));
    FilterConcat(a, b, OtherId(id));
  }

  /** After `addSearch` only the head carries the dish's id, and the tail is
      the old list without that id, in its old order. */
  lemma AddSearchMeaning(entries: seq<Entry>, dish: Entry, now: int)
    ensures var r := AddSearch(entries, dish, now);
      forall i :: 1 <= i < |r| ==> r[i].id != dish.id
    ensures AddSearch(entries, dish, now)[1..] == RemoveSearch(entries, dish.id)
  {
    var r := AddSearch(entries, dish, now);
    assert r[1..] == RemoveSearch(entries, dish.id);
    forall i | 1 <= i < |r|
      ensures r[i].id != dish.id
    {
      assert r[i] == RemoveSearch(entries, dish.id)[i - 1];
    }
  }

  /** Filtering a list with unique ids leaves the ids unique. */
  lemma RemoveSearchKeepsDistinct(entries: seq<Entry>, id: Option<string>)
    requires DistinctIds(entries)
    ensures DistinctIds(RemoveSearch(entries, id))
  {
    FilterKeepsDistinct(entries, OtherId(id), (e: Entry) => e.id);
  }

  /** The list never holds an id twice: `addSearch` keeps uniqueness. */
  lemma AddSearchKeepsDistinct(entries: seq<Entry>, dish: Entry, now: int)
    requires DistinctIds(entries)
    ensures DistinctIds(AddSearch(entries, dish, now))
  {
    var r := AddSearch(entries, dish, now);
    RemoveSearchKeepsDistinct(entries, dish.id);
    AddSearchMeaning(entries, dish, now);
    forall i, j | 0 <= i < j < |r|
      ensures r[i].id != r[j].id
    {
      if i > 0 {
        assert r[i] == RemoveSearch(entries, dish.id)[i - 1] && r[j] == RemoveSearch(entries, dish.id)[j - 1];
      }
    }
  }

  /** Searching the same dish twice leaves one entry for it, at the front. */
  lemma AddSearchTwice(entries: seq<Entry>, dish: Entry, t1: int, t2: int)
    ensures AddSearch(AddSearch(entries, dish, t1), dish, t2) == AddSearch(entries, dish, t2)
  {
    var once := AddSearch(entries, dish, t1);
    var rest := RemoveSearch(entries, dish.id);
    AddSearchMeaning(entries, dish, t1);
    assert once == [once[0]] + rest;
    assert once[0].id == dish.id;
    assert !OtherId(dish.id)(once[0]);
    assert once[1..] == rest;
    assert Filter(once, OtherId(dish.id)) == Filter(rest, OtherId(dish.id));
    FilterKeepsAll(rest, OtherId(dish.id));
  }
}
