/**
 * The favorites store: the ordered list of saved items, unique by id, that
 * `FavoritesManager` keeps in memory and writes through to `UserDefaults`
 * under one key on every change; plus `Color.toHex()`, which turns an
 * item's accent colour into the hex text it is stored as.
 */
module Favorites {
  import opened Wrappers
  import opened Foundation
  import opened DesignSystem

  // ---------------------------------------------------------------------------
  // Color.toHex()
  // ---------------------------------------------------------------------------

  /**
   * `Color.toHex()` on the colour's 8-bit channels: `(r << 16) | (g << 8) | b`
   * printed with `%06X`. The three fields do not overlap, so the `|` is a sum.
   * Alpha is dropped.
   */
  function ToHex(c: Rgba): (s: string)
    ensures |s| == 6 && AllHexDigits(s)
    ensures HexValue(s) == c.r * 0x1_0000 + c.g * 0x100 + c.b
    ensures forall i :: 0 <= i < |s| ==> IsDigit(s[i]) || 'A' <= s[i] <= 'F'
  {
    var rgb := c.r * 0x1_0000 + c.g * 0x100 + c.b;
    assert rgb < Pow(16, 6);
    FormatHex(rgb, 6)
  }

  /** The six digits `toHex` writes decode, in the 6-digit branch of `Color(hex:)`, to the same red, green and blue, with alpha 255. */
  lemma ToHexRoundTrip(c: Rgba)
    ensures ColorFromHex(ToHex(c)) == Some(Rgba(c.r, c.g, c.b, 255))
  {
    var s := ToHex(c);
    PackedChannels(c.r, c.g, c.b);
    SixDigitValue(s, c.r, c.g, c.b);
  }

  lemma PackedChannels(r: nat, g: nat, b: nat)
    ensures r * 0x1_0000 + g * 0x100 + b == (r * 0x100 + g) * 0x100 + b
  {
  }

  /** Two colours that differ in red, green or blue never get the same hex text. */
  lemma ToHexInjective(c: Rgba, d: Rgba)
    requires ToHex(c) == ToHex(d)
    ensures c.r == d.r && c.g == d.g && c.b == d.b
  {
    ToHexRoundTrip(c);
    ToHexRoundTrip(d);
  }

  // ---------------------------------------------------------------------------
  // FavoriteItem
  // ---------------------------------------------------------------------------

  /** A saved reference. `timestamp` stands for the `Date` it was created at. */
  datatype FavoriteItem = FavoriteItem(
    id: string,
    title: string,
    description: string,
    icon: string,
    accentColorHex: string,
    metadata: Option<string>,
    timestamp: int)

  /**
   * `FavoriteItem.init`: copies its arguments, stores the accent colour as
   * `toHex()` text, and stamps the item with the current time `now`.
   */
  function NewFavoriteItem(id: string, title: string, description: string, icon: string,
                           accentColor: Rgba, metadata: Option<string>, now: int): (item: FavoriteItem)
    ensures item.id == id && item.title == title && item.description == description
    ensures item.icon == icon && item.metadata == metadata && item.timestamp == now
    ensures AccentColor(item) == Rgba(accentColor.r, accentColor.g, accentColor.b, 255)
  {
    ToHexRoundTrip(accentColor);
    FavoriteItem(id, title, description, icon, ToHex(accentColor), metadata, now)
  }

  /** `FavoriteItem.accentColor`: the stored hex text decoded, or neon green when it does not decode. */
  function AccentColor(item: FavoriteItem): Rgba {
    ColorFromHex(item.accentColorHex).GetOr(PaletteValue(NeonGreen))
  }

  // ---------------------------------------------------------------------------
  // The list operations, as functions on the list
  // ---------------------------------------------------------------------------

  /** Some item of `items` has the id `id` (`contains(where: { $0.id == id })`). */
  predicate HasId(items: seq<FavoriteItem>, id: string) {
    exists i | 0 <= i < |items| :: items[i].id == id
  }

  /** No two items share an id. */
  ghost predicate UniqueIds(items: seq<FavoriteItem>) {
    forall i, j | 0 <= i < j < |items| :: items[i].id != items[j].id
  }

  /** `add`: append `item` unless an item with its id is already there. */
  function Added(items: seq<FavoriteItem>, item: FavoriteItem): seq<FavoriteItem> {
    if HasId(items, item.id) then items else items + [item]
  }

  /** `removeAll { $0.id == id }`: drop every item with that id, keeping the others in order. */
  function Removed(items: seq<FavoriteItem>, id: string): (r: seq<FavoriteItem>)
    ensures |r| <= |items|
    ensures forall k | 0 <= k < |r| :: r[k].id != id
    decreases |items|
  {
    if items == [] then []
    else
      var rest := Removed(items[..|items| - 1], id);
      var last := items[|items| - 1];
      assert items == items[..|items| - 1] + [last];
      if last.id == id then rest else rest + [last]
  }

  /** `remove` keeps the surviving items in their old order: an item added last stays last, unless it goes. */
  lemma RemovedAppend(items: seq<FavoriteItem>, x: FavoriteItem, id: string)
    ensures Removed(items + [x], id) == Removed(items, id) + (if x.id == id then [] else [x])
  {
    assert (items + [x])[..|items|] == items;
  }

  /** The items `remove` keeps are exactly the old items with another id. */
  lemma {:induction false} RemovedMembers(items: seq<FavoriteItem>, id: string, x: FavoriteItem)
    ensures x in Removed(items, id) <==> x in items && x.id != id
    decreases |items|
  {
    if items != [] {
      var init, last := items[..|items| - 1], items[|items| - 1];
      assert items == init + [last];
      RemovedMembers(init, id, x);
    }
  }

  /** After `add(item)` the item's id is present, and the list is the old one or the old one plus `item` at the end. */
  lemma AddedHasId(items: seq<FavoriteItem>, item: FavoriteItem)
    ensures HasId(Added(items, item), item.id)
    ensures Added(items, item) == items || Added(items, item) == items + [item]
    ensures HasId(items, item.id) <==> Added(items, item) == items
  {
    if !HasId(items, item.id) {
      var r := items + [item];
      assert r[|items|].id == item.id;
      assert r != items;
    }
  }

  /** Adding the same item again changes nothing: n adds are one add. */
  lemma AddedIdempotent(items: seq<FavoriteItem>, item: FavoriteItem)
    ensures Added(Added(items, item), item) == Added(items, item)
  {
    AddedHasId(items, item);
  }

  /** `add` keeps ids unique. */
  lemma AddedKeepsUnique(items: seq<FavoriteItem>, item: FavoriteItem)
    requires UniqueIds(items)
    ensures UniqueIds(Added(items, item))
  {
    if !HasId(items, item.id) {
      var r := items + [item];
      forall i, j | 0 <= i < j < |r| ensures r[i].id != r[j].id {
        if j == |items| {
          assert r[i] == items[i];
        }
      }
    }
  }

  /** Removing an id that is not there leaves the list as it was. */
  lemma {:induction false} RemovedAbsent(items: seq<FavoriteItem>, id: string)
    requires !HasId(items, id)
    ensures Removed(items, id) == items
    decreases |items|
  {
    if items != [] {
      var init, last := items[..|items| - 1], items[|items| - 1];
      assert !HasId(init, id) && last.id != id by {
        assert forall i | 0 <= i < |init| :: init[i] == items[i];
      }
      RemovedAbsent(init, id);
      assert items == init + [last];
    }
  }

  /** `remove` keeps ids unique. */
  lemma {:induction false} RemovedKeepsUnique(items: seq<FavoriteItem>, id: string)
    requires UniqueIds(items)
    ensures UniqueIds(Removed(items, id))
    decreases |items|
  {
    if items != [] {
      var init := items[..|items| - 1];
      var last := items[|items| - 1];
      assert UniqueIds(init) by {
        forall i, j | 0 <= i < j < |init| ensures init[i].id != init[j].id {
          assert init[i] == items[i] && init[j] == items[j];
        }
      }
      RemovedKeepsUnique(init, id);
      var rest := Removed(init, id);
      if last.id != id {
        var r := rest + [last];
        forall i, j | 0 <= i < j < |r| ensures r[i].id != r[j].id {
          if j == |rest| {
            RemovedMembers(init, id, rest[i]);
            assert r[i] == rest[i] && rest[i] in init;
            var k :| 0 <= k < |init| && init[k] == rest[i];
            assert items[k] == init[k];
          } else {
            assert r[i] == rest[i] && r[j] == rest[j];
          }
        }
      }
    }
  }

  /** After `remove(item)` the item is no longer a favorite, and every other id keeps its status. */
  lemma RemovedHasId(items: seq<FavoriteItem>, id: string, other: string)
    ensures !HasId(Removed(items, id), id)
    ensures other != id ==> (HasId(Removed(items, id), other) <==> HasId(items, other))
  {
    var r := Removed(items, id);
    if other != id {
      if HasId(items, other) {
        var i :| 0 <= i < |items| && items[i].id == other;
        RemovedMembers(items, id, items[i]);
        assert items[i] in r;
        var k :| 0 <= k < |r| && r[k] == items[i];
      }
      if HasId(r, other) {
        var k :| 0 <= k < |r| && r[k].id == other;
        RemovedMembers(items, id, r[k]);
        assert r[k] in items;
        var i :| 0 <= i < |items| && items[i] == r[k];
      }
    }
  }

  // ---------------------------------------------------------------------------
  // Storage
  // ---------------------------------------------------------------------------

  /** The one `UserDefaults` key the whole list is written under. */
  const StorageKey := "BlinkRatio_Favorites"

  /**
   * What `UserDefaults` holds under a key, as far as the store can tell: data
   * that `JSONDecoder` reads back as a list of items, or anything else.
   */
  datatype StoredValue = EncodedItems(items: seq<FavoriteItem>) | OtherValue

  /** `loadFavorites`: the stored list, or the empty list when the key is absent or its data does not decode. */
  function Loaded(defaults: map<string, StoredValue>): (items: seq<FavoriteItem>)
    ensures !(StorageKey in defaults && defaults[StorageKey].EncodedItems?) ==> items == []
    ensures StorageKey in defaults && defaults[StorageKey].EncodedItems? ==> items == defaults[StorageKey].items
  {
    if StorageKey in defaults && defaults[StorageKey].EncodedItems? then defaults[StorageKey].items else []
  }

  /** `saveFavorites` when encoding succeeds: the whole list replaces what was stored under the key. */
  function Saved(defaults: map<string, StoredValue>, items: seq<FavoriteItem>): map<string, StoredValue> {
    defaults[StorageKey := EncodedItems(items)]
  }

  /** What is saved is what a later launch loads; other keys are untouched. */
  lemma SavedThenLoaded(defaults: map<string, StoredValue>, items: seq<FavoriteItem>, key: string)
    ensures Loaded(Saved(defaults, items)) == items
    ensures key != StorageKey && key in defaults ==> key in Saved(defaults, items) && Saved(defaults, items)[key] == defaults[key]
  {
  }

  // ---------------------------------------------------------------------------
  // FavoritesManager
  // ---------------------------------------------------------------------------

  /**
   * `FavoritesManager`: the in-memory list `favoriteItems` and the app's
   * `UserDefaults`, which it reads once when created and writes on every
   * change. `encodes` on each changing method says whether `JSONEncoder`
   * succeeded; when it fails the write is skipped and memory stays ahead of
   * storage.
   */
  class FavoritesManager {
    var favoriteItems: seq<FavoriteItem>
    var defaults: map<string, StoredValue>

    /** `init()`, which calls `loadFavorites()`. */
    constructor(defaults: map<string, StoredValue>)
      ensures this.defaults == defaults
      ensures favoriteItems == Loaded(defaults)
    {
      this.defaults := defaults;
      favoriteItems := [];
      new;
      LoadFavorites();
    }

    method LoadFavorites()
      modifies this`favoriteItems
      ensures favoriteItems == (if StorageKey in defaults && defaults[StorageKey].EncodedItems? then defaults[StorageKey].items else old(favoriteItems))
    {
      if StorageKey in defaults && defaults[StorageKey].EncodedItems? {
        favoriteItems := defaults[StorageKey].items;
      }
    }

    method SaveFavorites(encodes: bool)
      modifies this`defaults
      ensures defaults == if encodes then Saved(old(defaults), favoriteItems) else old(defaults)
    {
      if encodes {
        defaults := defaults[StorageKey := EncodedItems(favoriteItems)];
      }
    }

    method Add(item: FavoriteItem, encodes: bool)
      modifies this
      ensures favoriteItems == Added(old(favoriteItems), item)
      ensures defaults == if HasId(old(favoriteItems), item.id) || !encodes then old(defaults)
                          else Saved(old(defaults), favoriteItems)
      ensures UniqueIds(old(favoriteItems)) ==> UniqueIds(favoriteItems)
      ensures IsFavoriteIn(item.id)
    {
      AddedHasId(favoriteItems, item);
      if UniqueIds(favoriteItems) {
        AddedKeepsUnique(favoriteItems, item);
      }
      if !HasId(favoriteItems, item.id) {
        favoriteItems := favoriteItems + [item];
        SaveFavorites(encodes);
      }
    }

    method Remove(item: FavoriteItem, encodes: bool)
      modifies this
      ensures favoriteItems == Removed(old(favoriteItems), item.id)
      ensures defaults == if encodes then Saved(old(defaults), favoriteItems) else old(defaults)
      ensures UniqueIds(old(favoriteItems)) ==> UniqueIds(favoriteItems)
      ensures !IsFavoriteIn(item.id)
    {
      if UniqueIds(favoriteItems) {
        RemovedKeepsUnique(favoriteItems, item.id);
      }
      favoriteItems := Removed(favoriteItems, item.id);
      SaveFavorites(encodes);
    }

    method ClearAll(encodes: bool)
      modifies this
      ensures favoriteItems == []
      ensures defaults == if encodes then Saved(old(defaults), []) else old(defaults)
    {
      favoriteItems := [];
      SaveFavorites(encodes);
    }

    predicate IsFavoriteIn(itemId: string)
      reads this
    {
      HasId(favoriteItems, itemId)
    }

    /** `isFavorite(_:)`. */
    method IsFavorite(itemId: string) returns (b: bool)
      ensures b <==> exists i | 0 <= i < |favoriteItems| :: favoriteItems[i].id == itemId
    {
      b := HasId(favoriteItems, itemId);
    }
  }

  /** Clearing and then launching again from the same storage gives an empty list. */
  method ClearThenRelaunch(defaults: map<string, StoredValue>) returns (relaunched: FavoritesManager)
    ensures relaunched.favoriteItems == []
  {
    var m := new FavoritesManager(defaults);
    m.ClearAll(true);
    relaunched := new FavoritesManager(m.defaults);
  }
}
