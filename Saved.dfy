/**
 * The saved-homes page (src/app/saved/page.tsx): a list of saved listings held
 * in page state, from which a listing is removed by id.
 */
module Saved {
  import opened Filtering

  /** A saved listing; an absent `isPremium` flag is `false`. */
  datatype SavedProperty = SavedProperty(
    id: string,
    title: string,
    location: string,
    price: int,
    images: seq<string>,
    beds: int,
    baths: real,
    sqft: int,
    propertyType: string,
    savedDate: string,
    isPremium: bool)

  /** No two saved listings share an id. */
  ghost predicate UniqueIds(homes: seq<SavedProperty>)
  {
    forall i, j :: 0 <= i < j < |homes| ==> homes[i].id != homes[j].id
  }

  ghost predicate HasId(homes: seq<SavedProperty>, id: string)
  {
    exists i :: 0 <= i < |homes| && homes[i].id == id
  }

  /** The callback handed to the list filter when `id` is removed. */
  function IdIsNot(id: string): SavedProperty -> bool
  {
    (home: SavedProperty) => home.id != id
  }

  /** The list after `removeSavedHome(id)`: every listing whose id is `id` is dropped. */
  function WithoutId(homes: seq<SavedProperty>, id: string): (r: seq<SavedProperty>)
    ensures |r| <= |homes|
    ensures forall i :: 0 <= i < |r| ==> r[i].id != id
  {
    Filter(homes, IdIsNot(id))
  }

  /**
   * The survivors are exactly the listings with another id, unchanged, in their
   * original order, and as many as the listings with another id.
   */
  lemma RemoveKeepsOthers(homes: seq<SavedProperty>, id: string)
    ensures forall h :: h in WithoutId(homes, id) <==> h in homes && h.id != id
    ensures IsSubsequence(WithoutId(homes, id), homes)
    ensures |WithoutId(homes, id)| == Count(homes, IdIsNot(id))
  {
    FilterMembership(homes, IdIsNot(id));
    FilterIsSubsequence(homes, IdIsNot(id));
    FilterLength(homes, IdIsNot(id));
  }

  /** Removing an id that no listing has leaves the list as it was. */
  lemma RemoveAbsentIsNoOp(homes: seq<SavedProperty>, id: string)
    requires !HasId(homes, id)
    ensures WithoutId(homes, id) == homes
  {
    forall h | h in homes
      ensures h.id != id
    {
      var i :| 0 <= i < |homes| && homes[i] == h;
    }
    FilterAllPass(homes, IdIsNot(id));
  }

  /** Removing the same id a second time changes nothing. */
  lemma RemoveTwiceIsRemoveOnce(homes: seq<SavedProperty>, id: string)
    ensures WithoutId(WithoutId(homes, id), id) == WithoutId(homes, id)
  {
    FilterIdempotent(homes, IdIsNot(id));
  }

  /** Two removals give the same list in either order. */
  lemma RemovalsCommute(homes: seq<SavedProperty>, a: string, b: string)
    ensures WithoutId(WithoutId(homes, a), b) == WithoutId(WithoutId(homes, b), a)
  {
    var both := (h: SavedProperty) => h.id != a && h.id != b;
    FilterConjunction(homes, IdIsNot(a), IdIsNot(b), both);
    FilterConjunction(homes, IdIsNot(b), IdIsNot(a), both);
  }

  /** With unique ids, removing an id that is present shortens the list by exactly one. */
  lemma {:induction false} RemovePresentDropsOne(homes: seq<SavedProperty>, id: string)
    requires UniqueIds(homes)
    requires HasId(homes, id)
    ensures |WithoutId(homes, id)| == |homes| - 1
  {
    var rest := homes[1..];
    assert UniqueIds(rest) by {
      forall i, j | 0 <= i < j < |rest| ensures rest[i].id != rest[j].id {
        assert rest[i] == homes[i + 1] && rest[j] == homes[j + 1];
      }
    }
    if homes[0].id == id {
      forall k | 0 <= k < |rest| ensures rest[k].id != id {
        assert rest[k] == homes[k + 1];
      }
      RemoveAbsentIsNoOp(rest, id);
    } else {
      var k :| 0 <= k < |homes| && homes[k].id == id;
      assert rest[k - 1] == homes[k];
      RemovePresentDropsOne(rest, id);
    }
  }

  /** Removal keeps the ids unique. */
  lemma {:induction false} RemoveKeepsUniqueIds(homes: seq<SavedProperty>, id: string)
    requires UniqueIds(homes)
    ensures UniqueIds(WithoutId(homes, id))
  {
    if homes != [] {
      var rest := homes[1..];
      assert UniqueIds(rest) by {
        forall i, j | 0 <= i < j < |rest| ensures rest[i].id != rest[j].id {
          assert rest[i] == homes[i + 1] && rest[j] == homes[j + 1];
        }
      }
      RemoveKeepsUniqueIds(rest, id);
      if homes[0].id != id {
        var tail := WithoutId(rest, id);
        var r := WithoutId(homes, id);
        assert r == [homes[0]] + tail;
        FilterMembership(rest, IdIsNot(id));
        forall j | 0 <= j < |tail| ensures homes[0].id != tail[j].id {
          assert tail[j] in rest;
          var k :| 0 <= k < |rest| && rest[k] == tail[j];
          assert homes[k + 1] == tail[j];
        }
        forall i, j | 0 <= i < j < |r| ensures r[i].id != r[j].id {
          if i == 0 {
            assert r[j] == tail[j - 1];
          } else {
            assert r[i] == tail[i - 1] && r[j] == tail[j - 1];
          }
        }
      }
    }
  }

  // ---- What the page renders from the list ----

  datatype SavedBody = Cards(cards: seq<SavedProperty>) | NoSavedHomes

  /** The header's "N properties saved" figure and the main area: a card grid or the empty state. */
  datatype SavedView = SavedView(headerCount: nat, body: SavedBody)

  function View(homes: seq<SavedProperty>): (v: SavedView)
    ensures v.headerCount == |homes|
    ensures v.body.NoSavedHomes? <==> |homes| == 0
    ensures v.body.Cards? ==> v.body.cards == homes
  {
    SavedView(|homes|, if |homes| > 0 then Cards(homes) else NoSavedHomes)
  }

  /** Removing the only saved listing switches the page to its empty state with a count of 0. */
  lemma RemovingLastShowsEmptyState(home: SavedProperty)
    ensures View(WithoutId([home], home.id)) == SavedView(0, NoSavedHomes)
  {
    FilterCons(home, [], IdIsNot(home.id));
  }

  // ---- The page's state ----

  const PENTHOUSE := SavedProperty("1", "Luxury Penthouse with Ocean View", "Banana Island, Ikoyi", 15000000,
    ["/luxury-penthouse.jpg"], 4, 4.5, 3200, "Penthouse", "2024-02-15", true)

  const SEED_SAVED_HOMES: seq<SavedProperty> := [PENTHOUSE]

  class SavedHomesPage {
    var savedHomes: seq<SavedProperty>

    ghost predicate Valid()
      reads this
    {
      UniqueIds(savedHomes)
    }

    constructor ()
      ensures savedHomes == SEED_SAVED_HOMES
      ensures Valid()
    {
      savedHomes := SEED_SAVED_HOMES;
    }

    /** The page header and body for the current list. */
    function CurrentView(): (v: SavedView)
      reads this
      ensures v.headerCount == |savedHomes|
      ensures v.body.NoSavedHomes? <==> savedHomes == []
    {
      View(savedHomes)
    }

    /** `removeSavedHome`: replace the list by the same list without the listings whose id is `id`. */
    method RemoveSavedHome(id: string)
      modifies this
      ensures savedHomes == WithoutId(old(savedHomes), id)
      ensures old(Valid()) ==> Valid()
      ensures old(Valid()) && HasId(old(savedHomes), id) ==> |savedHomes| == |old(savedHomes)| - 1
      ensures !HasId(old(savedHomes), id) ==> savedHomes == old(savedHomes)
    {
      ghost var before := savedHomes;
      savedHomes := WithoutId(savedHomes, id);
      if UniqueIds(before) {
        RemoveKeepsUniqueIds(before, id);
        if HasId(before, id) {
          RemovePresentDropsOne(before, id);
        }
      }
      if !HasId(before, id) {
        RemoveAbsentIsNoOp(before, id);
      }
    }
  }
}
