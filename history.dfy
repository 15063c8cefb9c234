/**
 * The render-history store: a most-recent-first list of render records,
 * capped at 50 entries, mirrored into two persistent entries (the list itself
 * and the ids of the favourite records). Every mutation computes a new list
 * and hands it to `SaveHistory`, which replaces the in-memory list only after
 * both writes have succeeded.
 */
module History {
  import opened Wrappers
  import opened Lists
  import Storage

  const MaxHistoryItems: nat := 50
  const HistoryKey := "@puml_viewer_history"
  const FavoritesKey := "@puml_viewer_favorites"

  datatype RenderType = Text | Svg | Png

  /** One rendered diagram. `None` stands for a property that is `undefined`. */
  datatype HistoryItem = HistoryItem(
    id: string,
    pumlCode: string,
    renderId: string,
    renderType: RenderType,
    createdAt: int,
    previewUrl: Option<string>,
    isFavorite: Option<bool>,
    title: Option<string>)

  /** What a caller hands to `AddToHistory`: a record without `id` and `createdAt`. */
  datatype NewItem = NewItem(
    pumlCode: string,
    renderId: string,
    renderType: RenderType,
    previewUrl: Option<string>,
    isFavorite: Option<bool>,
    title: Option<string>)

  /**
   * A partial record for `UpdateHistoryItem`. `None` means the property is not
   * present; for the optional properties, `Some(None)` means it is present and
   * `undefined`, which the spread copies over the old value.
   */
  datatype Changes = Changes(
    id: Option<string>,
    pumlCode: Option<string>,
    renderId: Option<string>,
    renderType: Option<RenderType>,
    createdAt: Option<int>,
    previewUrl: Option<Option<string>>,
    isFavorite: Option<Option<bool>>,
    title: Option<Option<string>>)

  const NoChanges := Changes(None, None, None, None, None, None, None, None)

  /** Truthiness of the optional flag: only `true` counts as a favourite. */
  predicate IsFavorite(item: HistoryItem) {
    item.isFavorite == Some(true)
  }

  predicate UniqueIds(h: seq<HistoryItem>) {
    Pairwise(h, (a: HistoryItem, b: HistoryItem) => a.id != b.id)
  }

  predicate UniqueRenders(h: seq<HistoryItem>) {
    Pairwise(h, (a: HistoryItem, b: HistoryItem) => a.renderId != b.renderId)
  }

  /** The invariants that add, remove, toggle, update and load preserve under their lemmas' premises. */
  predicate WellFormed(h: seq<HistoryItem>) {
    |h| <= MaxHistoryItems && UniqueIds(h) && UniqueRenders(h)
  }

  lemma UniqueIdsAt(h: seq<HistoryItem>, i: nat, j: nat)
    requires UniqueIds(h) && i < |h| && j < |h| && i != j
    ensures h[i].id != h[j].id
  {
    if j < i {
      assert h[j].id != h[i].id;
    }
  }

  predicate HasId(h: seq<HistoryItem>, id: string) {
    exists i :: 0 <= i < |h| && h[i].id == id
  }

  function Min(a: nat, b: nat): nat {
    if a <= b then a else b
  }

  /** The ids of `s`, in order. */
  function Ids(s: seq<HistoryItem>): (r: seq<string>)
    ensures |r| == |s| && forall i :: 0 <= i < |s| ==> r[i] == s[i].id
  {
    seq(|s|, i requires 0 <= i < |s| => s[i].id)
  }

  // ---------------------------------------------------------------------------
  // The new lists computed by the operations

  /** The record `addToHistory` builds: fresh id and timestamp, not a favourite. */
  function NewRecord(item: NewItem, id: string, now: int): (r: HistoryItem)
    ensures r.id == id && r.createdAt == now && r.isFavorite == Some(false)
    ensures r.pumlCode == item.pumlCode && r.renderId == item.renderId && r.renderType == item.renderType
    ensures r.previewUrl == item.previewUrl && r.title == item.title
  {
    HistoryItem(id, item.pumlCode, item.renderId, item.renderType, now, item.previewUrl, Some(false), item.title)
  }

  /** The entries that do not belong to render `renderId`. */
  function WithoutRender(h: seq<HistoryItem>, renderId: string): (r: seq<HistoryItem>)
    ensures |r| <= |h|
    ensures forall i :: 0 <= i < |r| ==> r[i] in h && r[i].renderId != renderId
    ensures forall i :: 0 <= i < |h| && h[i].renderId != renderId ==> h[i] in r
  {
    Filter(h, (x: HistoryItem) => x.renderId != renderId)
  }

  /**
   * The list after adding `item`: `item` first, then the old entries of other
   * renders in their old order, cut to 50 entries so that the oldest go.
   */
  function Added(h: seq<HistoryItem>, item: HistoryItem): (r: seq<HistoryItem>)
    ensures 0 < |r| <= MaxHistoryItems && |r| <= |h| + 1
    ensures r[0] == item
    ensures forall i :: 1 <= i < |r| ==> r[i].renderId != item.renderId
    ensures r[1..] <= WithoutRender(h, item.renderId)
    ensures |r| == Min(MaxHistoryItems, 1 + |WithoutRender(h, item.renderId)|)
  {
    var kept := [item] + WithoutRender(h, item.renderId);
    var r := kept[..Min(MaxHistoryItems, |kept|)];
    assert r[1..] == kept[1..|r|];
    r
  }

  /** The list after `removeFromHistory(id)`. */
  function Removed(h: seq<HistoryItem>, id: string): (r: seq<HistoryItem>)
    ensures |r| <= |h|
    ensures forall i :: 0 <= i < |r| ==> r[i] in h && r[i].id != id
    ensures forall i :: 0 <= i < |h| && h[i].id != id ==> h[i] in r
  {
    Filter(h, (x: HistoryItem) => x.id != id)
  }

  /** `{ ...item, isFavorite: !item.isFavorite }` */
  function Flipped(item: HistoryItem): (r: HistoryItem)
    ensures r.isFavorite.Some? && IsFavorite(r) != IsFavorite(item)
    ensures item.isFavorite.None? ==> IsFavorite(r)
    ensures r.(isFavorite := item.isFavorite) == item
  {
    item.(isFavorite := Some(!IsFavorite(item)))
  }

  /** The list after `toggleFavorite(id)`. */
  function Toggled(h: seq<HistoryItem>, id: string): (r: seq<HistoryItem>)
    ensures |r| == |h|
    ensures forall i :: 0 <= i < |h| && h[i].id != id ==> r[i] == h[i]
    ensures forall i :: 0 <= i < |h| && h[i].id == id ==>
      IsFavorite(r[i]) != IsFavorite(h[i]) && r[i].isFavorite.Some? &&
      r[i].(isFavorite := h[i].isFavorite) == h[i]
  {
    seq(|h|, i requires 0 <= i < |h| => if h[i].id == id then Flipped(h[i]) else h[i])
  }

  /** `{ ...item, ...changes }`: every property present in `c` overwrites the old one. */
  function Merge(item: HistoryItem, c: Changes): (r: HistoryItem)
    ensures c == NoChanges ==> r == item
    ensures r.id == c.id.GetOr(item.id) && r.renderId == c.renderId.GetOr(item.renderId)
    ensures r.pumlCode == c.pumlCode.GetOr(item.pumlCode) && r.renderType == c.renderType.GetOr(item.renderType)
    ensures r.createdAt == c.createdAt.GetOr(item.createdAt) && r.previewUrl == c.previewUrl.GetOr(item.previewUrl)
    ensures r.isFavorite == c.isFavorite.GetOr(item.isFavorite) && r.title == c.title.GetOr(item.title)
  {
    HistoryItem(
      c.id.GetOr(item.id),
      c.pumlCode.GetOr(item.pumlCode),
      c.renderId.GetOr(item.renderId),
      c.renderType.GetOr(item.renderType),
      c.createdAt.GetOr(item.createdAt),
      c.previewUrl.GetOr(item.previewUrl),
      c.isFavorite.GetOr(item.isFavorite),
      c.title.GetOr(item.title))
  }

  /** The list after `updateHistoryItem(id, c)`. */
  function Updated(h: seq<HistoryItem>, id: string, c: Changes): (r: seq<HistoryItem>)
    ensures |r| == |h|
    ensures forall i :: 0 <= i < |h| && h[i].id != id ==> r[i] == h[i]
    ensures forall i :: 0 <= i < |h| && h[i].id == id ==> r[i] == Merge(h[i], c)
  {
    seq(|h|, i requires 0 <= i < |h| => if h[i].id == id then Merge(h[i], c) else h[i])
  }

  /** The `favorites` view. */
  function FavoritesOf(h: seq<HistoryItem>): (r: seq<HistoryItem>)
    ensures |r| <= |h|
    ensures forall i :: 0 <= i < |r| ==> r[i] in h && IsFavorite(r[i])
    ensures forall i :: 0 <= i < |h| && IsFavorite(h[i]) ==> h[i] in r
  {
    Filter(h, IsFavorite)
  }

  /** What is written under the favourites key: the favourite entries' ids in list order. */
  function FavoriteIds(h: seq<HistoryItem>): (r: seq<string>)
    ensures |r| <= |h|
    ensures forall i :: 0 <= i < |h| && IsFavorite(h[i]) ==> h[i].id in r
    ensures forall k :: 0 <= k < |r| ==> exists i :: 0 <= i < |h| && IsFavorite(h[i]) && r[k] == h[i].id
    ensures h == [] ==> r == []
  {
    var f := FavoritesOf(h);
    var r := Ids(f);
    assert forall i :: 0 <= i < |h| && IsFavorite(h[i]) ==> h[i].id in r by {
      forall i | 0 <= i < |h| && IsFavorite(h[i]) ensures h[i].id in r {
        var j :| 0 <= j < |f| && f[j] == h[i];
        assert r[j] == h[i].id;
      }
    }
    assert forall k :: 0 <= k < |r| ==> exists i :: 0 <= i < |h| && IsFavorite(h[i]) && r[k] == h[i].id by {
      forall k | 0 <= k < |r| ensures exists i :: 0 <= i < |h| && IsFavorite(h[i]) && r[k] == h[i].id {
        var i :| 0 <= i < |h| && h[i] == f[k];
        assert IsFavorite(h[i]) && r[k] == h[i].id;
      }
    }
    r
  }

  /** The favourite ids of two lists one after the other: their order is the list order. */
  lemma FavoriteIdsAppend(a: seq<HistoryItem>, b: seq<HistoryItem>)
    ensures FavoriteIds(a + b) == FavoriteIds(a) + FavoriteIds(b)
  {
    FilterAppend(a, b, IsFavorite);
  }

  /** The entries of one render type, as counted by the statistics. */
  function OfType(h: seq<HistoryItem>, t: RenderType): (r: seq<HistoryItem>)
    ensures |r| <= |h|
    ensures forall i :: 0 <= i < |r| ==> r[i] in h && r[i].renderType == t
    ensures forall i :: 0 <= i < |h| && h[i].renderType == t ==> h[i] in r
  {
    Filter(h, (x: HistoryItem) => x.renderType == t)
  }

  /** The list `loadHistory` installs: each flag set from the stored favourite ids. */
  function Reconciled(saved: seq<HistoryItem>, favoriteIds: seq<string>): (r: seq<HistoryItem>)
    ensures |r| == |saved|
    ensures forall i :: 0 <= i < |saved| ==>
      r[i].isFavorite == Some(saved[i].id in favoriteIds) &&
      r[i].(isFavorite := saved[i].isFavorite) == saved[i]
  {
    seq(|saved|, i requires 0 <= i < |saved| => saved[i].(isFavorite := Some(saved[i].id in favoriteIds)))
  }

  /** `h` with every flag turned into the boolean it stands for. */
  function Normalized(h: seq<HistoryItem>): seq<HistoryItem> {
    seq(|h|, i requires 0 <= i < |h| => h[i].(isFavorite := Some(IsFavorite(h[i]))))
  }

  // ---------------------------------------------------------------------------
  // Properties of the new lists

  /** A render added again keeps one entry, at the front, whatever its old position. */
  lemma AddMovesRenderToFront(h: seq<HistoryItem>, item: HistoryItem, k: nat)
    requires k < |h| && h[k].renderId == item.renderId
    ensures var r := Added(h, item);
      r[0] == item && forall i :: 0 <= i < |r| && r[i].renderId == item.renderId ==> i == 0
  {
  }

  /**
   * While the cap is not reached, every old entry of another render survives
   * an add; once it is, the list is full and only the oldest are dropped.
   */
  lemma {:induction false} AddEvictsOldestOnly(h: seq<HistoryItem>, item: HistoryItem)
    ensures var rest := WithoutRender(h, item.renderId);
      var r := Added(h, item);
      (|rest| < MaxHistoryItems ==> r == [item] + rest) &&
      (|rest| >= MaxHistoryItems ==> |r| == MaxHistoryItems && r[1..] == rest[..MaxHistoryItems - 1])
  {
    var rest := WithoutRender(h, item.renderId);
    var r := Added(h, item);
    if |rest| < MaxHistoryItems {
      assert r[1..] == rest;
      assert r == [r[0]] + r[1..];
    }
  }

  /** Adding a record with an id not yet in the list keeps the list well formed. */
  lemma {:induction false} AddPreservesWellFormed(h: seq<HistoryItem>, item: HistoryItem)
    requires UniqueIds(h) && UniqueRenders(h)
    requires !HasId(h, item.id)
    ensures WellFormed(Added(h, item))
  {
    var rest := WithoutRender(h, item.renderId);
    var idRel := (a: HistoryItem, b: HistoryItem) => a.id != b.id;
    var renderRel := (a: HistoryItem, b: HistoryItem) => a.renderId != b.renderId;
    FilterPairwise(h, (x: HistoryItem) => x.renderId != item.renderId, idRel);
    FilterPairwise(h, (x: HistoryItem) => x.renderId != item.renderId, renderRel);
    var r := Added(h, item);
    forall i, j | 0 <= i < j < |r| ensures r[i].id != r[j].id && r[i].renderId != r[j].renderId {
      assert r[j] == rest[j - 1];
      if i == 0 {
        assert rest[j - 1] in h;
      } else {
        assert r[i] == rest[i - 1];
        assert idRel(rest[i - 1], rest[j - 1]) && renderRel(rest[i - 1], rest[j - 1]);
      }
    }
  }

  /** Removing an id that is not in the list changes nothing, and is not an error. */
  lemma RemoveUnknownIsNoop(h: seq<HistoryItem>, id: string)
    requires !HasId(h, id)
    ensures Removed(h, id) == h
  {
    FilterKeepsAll(h, (x: HistoryItem) => x.id != id);
  }

  /** Removing drops every entry with that id, keeps the rest, and shrinks the list when the id was present. */
  lemma RemoveKeepsOthers(h: seq<HistoryItem>, id: string)
    ensures var r := Removed(h, id);
      !HasId(r, id) &&
      (forall i :: 0 <= i < |h| && h[i].id != id ==> h[i] in r) &&
      (forall i :: 0 <= i < |r| ==> r[i] in h) &&
      (HasId(h, id) ==> |r| < |h|)
  {
    if HasId(h, id) {
      var k :| 0 <= k < |h| && h[k].id == id;
      FilterDrops(h, (x: HistoryItem) => x.id != id, k);
    }
  }

  /** Removing keeps the relative order of the remaining entries: it distributes over concatenation. */
  lemma RemoveKeepsOrder(a: seq<HistoryItem>, b: seq<HistoryItem>, id: string)
    ensures Removed(a + b, id) == Removed(a, id) + Removed(b, id)
  {
    FilterAppend(a, b, (x: HistoryItem) => x.id != id);
  }

  /** Adding keeps the relative order of the other renders' old entries. */
  lemma AddKeepsOrder(a: seq<HistoryItem>, b: seq<HistoryItem>, item: HistoryItem)
    ensures WithoutRender(a + b, item.renderId) == WithoutRender(a, item.renderId) + WithoutRender(b, item.renderId)
  {
    FilterAppend(a, b, (x: HistoryItem) => x.renderId != item.renderId);
  }

  /** Removing keeps the list well formed. */
  lemma RemovePreservesWellFormed(h: seq<HistoryItem>, id: string)
    requires WellFormed(h)
    ensures WellFormed(Removed(h, id))
  {
    FilterPairwise(h, (x: HistoryItem) => x.id != id, (a: HistoryItem, b: HistoryItem) => a.id != b.id);
    FilterPairwise(h, (x: HistoryItem) => x.id != id, (a: HistoryItem, b: HistoryItem) => a.renderId != b.renderId);
  }

  /** Membership in the favourites view, for a list whose ids are unique. */
  lemma {:induction false} FavoriteIdIff(h: seq<HistoryItem>, k: nat)
    requires UniqueIds(h) && k < |h|
    ensures h[k].id in FavoriteIds(h) <==> IsFavorite(h[k])
  {
    var f := FavoritesOf(h);
    if IsFavorite(h[k]) {
      assert h[k] in f;
      var j :| 0 <= j < |f| && f[j] == h[k];
      assert FavoriteIds(h)[j] == h[k].id;
    }
    if h[k].id in FavoriteIds(h) {
      var j :| 0 <= j < |f| && Ids(f)[j] == h[k].id;
      assert f[j] in h && IsFavorite(f[j]);
      var m :| 0 <= m < |h| && h[m] == f[j];
      if m != k {
        UniqueIdsAt(h, m, k);
      }
    }
  }

  /** Toggling a present id moves it into or out of the stored favourite ids. */
  lemma ToggleFlipsFavoriteId(h: seq<HistoryItem>, id: string)
    requires UniqueIds(h) && HasId(h, id)
    ensures id in FavoriteIds(Toggled(h, id)) <==> id !in FavoriteIds(h)
  {
    var k :| 0 <= k < |h| && h[k].id == id;
    var t := Toggled(h, id);
    assert Ids(t) == Ids(h);
    assert UniqueIds(t) by {
      forall i, j | 0 <= i < j < |t| ensures t[i].id != t[j].id {
        assert Ids(t)[i] == Ids(h)[i] && Ids(t)[j] == Ids(h)[j];
      }
    }
    FavoriteIdIff(h, k);
    FavoriteIdIff(t, k);
  }

  /** Toggling twice restores a list whose flags are all defined. */
  lemma ToggleTwice(h: seq<HistoryItem>, id: string)
    requires forall i :: 0 <= i < |h| ==> h[i].isFavorite.Some?
    ensures Toggled(Toggled(h, id), id) == h
  {
    var once := Toggled(h, id);
    var t := Toggled(once, id);
    forall i | 0 <= i < |h| ensures t[i] == h[i] {
      if h[i].id == id {
        assert once[i] == Flipped(h[i]) && t[i] == Flipped(once[i]);
        if h[i].isFavorite.value {
          assert h[i].isFavorite == Some(true);
        } else {
          assert h[i].isFavorite == Some(false);
        }
      }
    }
  }

  /** Toggling keeps the list well formed: ids and renders do not move. */
  lemma TogglePreservesWellFormed(h: seq<HistoryItem>, id: string)
    requires WellFormed(h)
    ensures WellFormed(Toggled(h, id))
  {
  }

  /** Updating an id that is not in the list changes nothing. */
  lemma UpdateUnknownIsNoop(h: seq<HistoryItem>, id: string, c: Changes)
    requires !HasId(h, id)
    ensures Updated(h, id, c) == h
  {
  }

  /** An update that leaves `id` and `renderId` alone keeps the list well formed. */
  lemma UpdatePreservesWellFormed(h: seq<HistoryItem>, id: string, c: Changes)
    requires WellFormed(h) && c.id.None? && c.renderId.None?
    ensures WellFormed(Updated(h, id, c))
  {
  }

  /** Per-type counts partition the list. */
  lemma {:induction false} TypeCountsSum(h: seq<HistoryItem>)
    ensures |OfType(h, Png)| + |OfType(h, Svg)| + |OfType(h, Text)| == |h|
  {
    if h != [] {
      TypeCountsSum(h[1..]);
    }
  }

  /**
   * Saving a list with unique ids and loading it back yields the same list
   * with each flag as a boolean; a list whose flags are all defined comes back unchanged.
   */
  lemma SaveLoadRoundTrip(h: seq<HistoryItem>)
    requires UniqueIds(h)
    ensures Reconciled(h, FavoriteIds(h)) == Normalized(h)
    ensures (forall i :: 0 <= i < |h| ==> h[i].isFavorite.Some?) ==> Reconciled(h, FavoriteIds(h)) == h
  {
    var r := Reconciled(h, FavoriteIds(h));
    forall i | 0 <= i < |h| ensures r[i] == Normalized(h)[i] {
      FavoriteIdIff(h, i);
    }
    if forall i :: 0 <= i < |h| ==> h[i].isFavorite.Some? {
      forall i | 0 <= i < |h| ensures Normalized(h)[i] == h[i] {
        if h[i].isFavorite.value {
          assert h[i].isFavorite == Some(true);
        } else {
          assert h[i].isFavorite == Some(false);
        }
      }
    }
  }

  /** The loaded list is well formed whenever the saved one is. */
  lemma LoadPreservesWellFormed(saved: seq<HistoryItem>, favoriteIds: seq<string>)
    requires WellFormed(saved)
    ensures WellFormed(Reconciled(saved, favoriteIds))
  {
  }

  /**
   * A render added, made a favourite, added again under a new record, then
   * removed: one entry counted as PNG, then a favourite, then replaced, then gone.
   */
  lemma ScenarioAddToggleReplaceRemove(a: HistoryItem, b: HistoryItem)
    requires a.renderId == b.renderId && a.renderType == Png && a.isFavorite == Some(false)
    ensures Added([], a) == [a]
    ensures |OfType([a], Png)| == 1 && OfType([a], Svg) == [] && OfType([a], Text) == []
    ensures FavoritesOf([a]) == []
    ensures FavoritesOf(Toggled([a], a.id)) == Toggled([a], a.id) != []
    ensures Added(Toggled([a], a.id), b) == [b]
    ensures Removed([b], b.id) == []
  {
    assert Added([], a) == [a] by {
      assert WithoutRender([], a.renderId) == [];
    }
    var t := Toggled([a], a.id);
    assert IsFavorite(t[0]);
    assert FavoritesOf(t) == [t[0]] + FavoritesOf(t[1..]);
    assert WithoutRender(t, b.renderId) == WithoutRender(t[1..], b.renderId);
    assert Added(t, b) == [b];
  }

  // ---------------------------------------------------------------------------
  // The store

  datatype SaveResult = Saved | HistoryWriteFailed | FavoritesWriteFailed
  datatype LoadResult = Loaded | NothingSaved | ReadFailed

  datatype ByType = ByType(png: nat, svg: nat, text: nat)
  datatype Statistics = Statistics(total: nat, byType: ByType, favorites: nat)

  class HistoryStore {
    var history: seq<HistoryItem>
    const historyEntry: Storage.Entry<seq<HistoryItem>>
    const favoritesEntry: Storage.Entry<seq<string>>

    /** The two entries are the store's two keys. */
    ghost predicate Valid() {
      historyEntry.key == HistoryKey && favoritesEntry.key == FavoritesKey
    }

    /** A store over the device's entries, before `LoadHistory`: the list is empty. */
    constructor (historyEntry: Storage.Entry<seq<HistoryItem>>, favoritesEntry: Storage.Entry<seq<string>>)
      requires historyEntry.key == HistoryKey && favoritesEntry.key == FavoritesKey
      ensures Valid() && history == []
      ensures this.historyEntry == historyEntry && this.favoritesEntry == favoritesEntry
    {
      history := [];
      this.historyEntry := historyEntry;
      this.favoritesEntry := favoritesEntry;
    }

    /** The `favorites` view: the favourite entries, in list order. */
    function Favorites(): (r: seq<HistoryItem>)
      reads this
      ensures |r| <= |history|
      ensures forall i :: 0 <= i < |r| ==> r[i] in history && IsFavorite(r[i])
      ensures forall i :: 0 <= i < |history| && IsFavorite(history[i]) ==> history[i] in r
    {
      FavoritesOf(history)
    }

    /** Counts over the in-memory list. */
    function GetStatistics(): (s: Statistics)
      reads this
      ensures s.total == |history|
      ensures s.byType.png + s.byType.svg + s.byType.text == s.total
      ensures s.favorites == |Favorites()| <= s.total
      ensures s.byType.png == |OfType(history, Png)| && s.byType.svg == |OfType(history, Svg)|
      ensures s.byType.text == |OfType(history, Text)|
    {
      TypeCountsSum(history);
      Statistics(|history|,
        ByType(|OfType(history, Png)|, |OfType(history, Svg)|, |OfType(history, Text)|),
        |Favorites()|)
    }

    /**
     * What a save did: on success memory and both entries hold the new list;
     * on a failed history write nothing changed; on a failed favourites write
     * the history entry is already new while memory and the favourites entry are old.
     */
    twostate predicate Persisted(r: SaveResult, newHistory: seq<HistoryItem>)
      reads this, historyEntry, favoritesEntry
      ensures Persisted(r, newHistory) && history != old(history) ==>
        historyEntry.value == Some(history) && favoritesEntry.value == Some(FavoriteIds(history))
    {
      match r
      case Saved =>
        history == newHistory && historyEntry.value == Some(newHistory) &&
        favoritesEntry.value == Some(FavoriteIds(newHistory))
      case HistoryWriteFailed =>
        history == old(history) && historyEntry.value == old(historyEntry.value) &&
        favoritesEntry.value == old(favoritesEntry.value)
      case FavoritesWriteFailed =>
        history == old(history) && historyEntry.value == Some(newHistory) &&
        favoritesEntry.value == old(favoritesEntry.value)
    }

    /**
     * Reads the saved list and the favourite ids. Nothing changes unless the
     * history key is present and both reads succeed; then each flag is set from
     * the ids, all false when the favourites key is absent.
     */
    method LoadHistory() returns (r: LoadResult)
      modifies this
      ensures r == Loaded ==>
        historyEntry.value.Some? &&
        history == Reconciled(historyEntry.value.value, favoritesEntry.value.GetOr([]))
      ensures r != Loaded ==> history == old(history)
      ensures r == NothingSaved <==> historyEntry.value.None? && r != ReadFailed
    {
      var ok, saved := historyEntry.Read();
      if !ok {
        return ReadFailed;
      }
      if saved.None? {
        return NothingSaved;
      }
      var okIds, ids := favoritesEntry.Read();
      if !okIds {
        return ReadFailed;
      }
      history := Reconciled(saved.value, ids.GetOr([]));
      r := Loaded;
    }

    /** Writes the list, then its favourite ids, then replaces memory. */
    method SaveHistory(newHistory: seq<HistoryItem>) returns (r: SaveResult)
      requires Valid()
      modifies this, historyEntry, favoritesEntry
      ensures Persisted(r, newHistory)
    {
      var ok := historyEntry.Write(newHistory);
      if !ok {
        return HistoryWriteFailed;
      }
      ok := favoritesEntry.Write(FavoriteIds(newHistory));
      if !ok {
        return FavoritesWriteFailed;
      }
      history := newHistory;
      r := Saved;
    }

    /** `addToHistory`; the id and the timestamp are supplied by the caller. */
    method AddToHistory(item: NewItem, id: string, now: int) returns (r: SaveResult)
      requires Valid()
      modifies this, historyEntry, favoritesEntry
      ensures Persisted(r, Added(old(history), NewRecord(item, id, now)))
    {
      var newItem := NewRecord(item, id, now);
      r := SaveHistory(Added(history, newItem));
    }

    method RemoveFromHistory(id: string) returns (r: SaveResult)
      requires Valid()
      modifies this, historyEntry, favoritesEntry
      ensures Persisted(r, Removed(old(history), id))
    {
      r := SaveHistory(Removed(history, id));
    }

    method ClearHistory() returns (r: SaveResult)
      requires Valid()
      modifies this, historyEntry, favoritesEntry
      ensures Persisted(r, [])
    {
      r := SaveHistory([]);
    }

    method ToggleFavorite(id: string) returns (r: SaveResult)
      requires Valid()
      modifies this, historyEntry, favoritesEntry
      ensures Persisted(r, Toggled(old(history), id))
    {
      r := SaveHistory(Toggled(history, id));
    }

    method UpdateHistoryItem(id: string, changes: Changes) returns (r: SaveResult)
      requires Valid()
      modifies this, historyEntry, favoritesEntry
      ensures Persisted(r, Updated(old(history), id, changes))
    {
      r := SaveHistory(Updated(history, id, changes));
    }
  }
}
