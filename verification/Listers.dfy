/** The paged drive and volume listers. Both walk the pages of a label query, cross requested names
    off a shrinking list, and fetch the names that are left; the result is a plain set. */
module Listers {
  import opened Objects

  type ID = nat

  /** A listed object: its name, its status, and whether the label selectors match it. */
  datatype Item = Item(id: ID, status: nat, selected: bool)

  function Flatten(pages: seq<seq<Item>>): seq<Item> {
    if pages == [] then [] else Flatten(pages[..|pages| - 1]) + pages[|pages| - 1]
  }

  ghost predicate DistinctIDs(items: seq<Item>) {
    forall i, j :: 0 <= i < j < |items| ==> items[i].id != items[j].id
  }

  /** The store is keyed by name. */
  ghost predicate Store(store: map<ID, Item>) {
    forall id :: id in store ==> store[id].id == id
  }

  /** `pages` is one way the API server may cut up the selected objects of a fixed store. */
  ghost predicate Paging(store: map<ID, Item>, pages: seq<seq<Item>>) {
    && DistinctIDs(Flatten(pages))
    && forall x :: x in Flatten(pages) <==> x.id in store && store[x.id] == x && x.selected
  }

  function Without(ids: seq<ID>, id: ID): seq<ID> {
    if ids == [] then []
    else Without(ids[..|ids| - 1], id) + (if ids[|ids| - 1] == id then [] else [ids[|ids| - 1]])
  }

  lemma {:induction false} WithoutMembers(ids: seq<ID>, id: ID)
    ensures forall x :: x in Without(ids, id) <==> x in ids && x != id
    ensures Distinct(ids) ==> Distinct(Without(ids, id))
  {
    if ids != [] {
      var init := ids[..|ids| - 1];
      WithoutMembers(init, id);
      assert ids == init + [ids[|ids| - 1]];
      if Distinct(ids) {
        assert ids[|ids| - 1] !in init;
      }
    }
  }

  /** What a caller wants to see of `x`: requested by name, or, unless only names were given,
      selected by labels and of a listed status (if statuses were listed). */
  predicate Wanted(x: Item, requested: seq<ID>, statuses: seq<nat>, namesOnly: bool) {
    x.id in requested || (!namesOnly && x.selected && (statuses == [] || x.status in statuses))
  }

  class Lister {
    var ids: seq<ID>
    const statusList: seq<nat>
    const hasSelectors: bool
    const ignoreNotFound: bool

    constructor (ids: seq<ID>, statusList: seq<nat>, hasSelectors: bool, ignoreNotFound: bool)
      ensures this.ids == ids && this.statusList == statusList
      ensures this.hasSelectors == hasSelectors && this.ignoreNotFound == ignoreNotFound
    {
      this.ids, this.statusList := ids, statusList;
      this.hasSelectors, this.ignoreNotFound := hasSelectors, ignoreNotFound;
    }

    /** Only names were given. */
    predicate NamesOnly()
      reads this`ids
    {
      !hasSelectors && statusList == [] && ids != []
    }

    /** Cross one listed object off the requested names. */
    method CrossOff(id: ID) returns (found: bool)
      modifies this`ids
      ensures found <==> id in old(ids)
      ensures ids == Without(old(ids), id)
    {
      found := false;
      var values := [];
      for i := 0 to |ids|
        invariant ids == old(ids)
        invariant found <==> id in ids[..i]
        invariant values == Without(ids[..i], id)
      {
        assert ids[..i + 1][..i] == ids[..i];
        if ids[i] == id {
          found := true;
        } else {
          values := values + [ids[i]];
        }
      }
      assert ids[..|ids|] == ids;
      ids := values;
    }

    /** What has been listed so far, against the names requested at the start. */
    ghost predicate Listed(requested: seq<ID>, seen: seq<Item>, out: seq<Item>)
      reads this`ids
    {
      && Distinct(ids)
      && (forall x :: x in ids <==> x in requested && forall y :: y in seen ==> y.id != x)
      && DistinctIDs(out)
      && (forall y :: y in out <==> y in seen && (y.id in requested || statusList == [] || y.status in statusList))
    }

    /** One item of one page. */
    method ListItem(item: Item, ghost requested: seq<ID>, ghost seen: seq<Item>, out: seq<Item>)
        returns (out': seq<Item>)
      requires Listed(requested, seen, out) && DistinctIDs(seen + [item])
      modifies this`ids
      ensures Listed(requested, seen + [item], out')
    {
      WithoutMembers(ids, item.id);
      var found := CrossOff(item.id);
      assert (seen + [item])[|seen|] == item;
      forall y | y in seen ensures y.id != item.id {
        var i :| 0 <= i < |seen| && seen[i] == y;
        assert (seen + [item])[i] == y;
      }
      if found || statusList == [] || item.status in statusList {
        out' := out + [item];
      } else {
        out' := out;
      }
    }

    method List(store: map<ID, Item>, pages: seq<seq<Item>>) returns (out: seq<Item>, failed: bool)
      requires Store(store) && Paging(store, pages) && Distinct(ids)
      modifies this`ids
      ensures failed <==> !ignoreNotFound && exists id :: id in old(ids) && id !in store
      ensures !failed ==> DistinctIDs(out)
      ensures !failed ==> forall x :: x in out <==>
                x.id in store && store[x.id] == x && Wanted(x, old(ids), statusList, old(NamesOnly()))
      ensures !failed ==> forall x :: x in out <==>
                && x.id in store && store[x.id] == x
                && (|| x.id in old(ids)
                    || (&& x.selected && (statusList == [] || x.status in statusList)
                        && (hasSelectors || statusList != [] || old(ids) == [])))
    {
      out := [];
      ghost var requested, seen := ids, [];
      if !NamesOnly() {
        for p := 0 to |pages|
          invariant seen == Flatten(pages[..p])
          invariant Listed(requested, seen, out)
        {
          assert pages[..p + 1][..p] == pages[..p];
          FlattenPrefix(pages, p + 1);
          for i := 0 to |pages[p]|
            invariant seen == Flatten(pages[..p]) + pages[p][..i]
            invariant Listed(requested, seen, out)
          {
            assert seen + [pages[p][i]] == Flatten(pages[..p]) + pages[p][..i + 1];
            PrefixDistinct(Flatten(pages), seen + [pages[p][i]]);
            out := ListItem(pages[p][i], requested, seen, out);
            seen := seen + [pages[p][i]];
          }
          assert pages[p][..|pages[p]|] == pages[p];
        }
        assert pages[..|pages|] == pages;
      }
      out, failed := FetchRest(store, requested, seen, out);
    }

    /** The names that are left are fetched one by one. */
    method FetchRest(store: map<ID, Item>, ghost requested: seq<ID>, ghost seen: seq<Item>, out: seq<Item>)
        returns (out': seq<Item>, failed: bool)
      requires Store(store) && Listed(requested, seen, out)
      requires forall y :: y in seen ==> y.id in store && store[y.id] == y
      ensures failed <==> !ignoreNotFound && exists id :: id in requested && id !in store
      ensures !failed ==> DistinctIDs(out')
      ensures !failed ==> forall y :: y in out' <==> y in out || (y.id in ids && y.id in store && store[y.id] == y)
    {
      out' := out;
      for i := 0 to |ids|
        invariant DistinctIDs(out')
        invariant !ignoreNotFound ==> forall j :: 0 <= j < i ==> ids[j] in store
        invariant forall y :: y in out' <==> y in out || (y.id in ids[..i] && y.id in store && store[y.id] == y)
      {
        assert ids[..i + 1] == ids[..i] + [ids[i]];
        assert ids[i] !in ids[..i];
        if ids[i] !in store {
          if ignoreNotFound {
            continue;
          }
          assert ids[i] in ids && ids[i] in requested;
          return out', true;
        }
        forall k | 0 <= k < |out'| ensures out'[k].id != ids[i] {
          assert out'[k] in out';
          assert ids[i] in ids;
        }
        out' := out' + [store[ids[i]]];
      }
      assert ids[..|ids|] == ids;
      failed := false;
      if !ignoreNotFound {
        forall id | id in requested ensures id in store {
          if id in ids {
            var j :| 0 <= j < |ids| && ids[j] == id;
          } else {
            var y :| y in seen && y.id == id;
          }
        }
      }
    }
  }

  lemma {:induction false} FlattenPrefix(pages: seq<seq<Item>>, n: nat)
    requires n <= |pages|
    ensures Flatten(pages[..n]) <= Flatten(pages)
    decreases |pages| - n
  {
    if n < |pages| {
      assert pages[..n + 1][..n] == pages[..n];
      FlattenPrefix(pages, n + 1);
    } else {
      assert pages[..n] == pages;
    }
  }

  lemma PrefixDistinct(items: seq<Item>, prefix: seq<Item>)
    requires DistinctIDs(items) && prefix <= items
    ensures DistinctIDs(prefix)
  {
    forall i, j | 0 <= i < j < |prefix| ensures prefix[i].id != prefix[j].id {
      assert prefix[i] == items[i] && prefix[j] == items[j];
    }
  }
}
