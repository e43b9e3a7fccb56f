/** The client's asset cache (`actives_cache` in myiq/core/client.py): a
    `defaultdict(dict)` from a category name (`"blitz"`, `"turbo"`,
    `"binary-option"`, ...) to a dict from the asset id, as a string, to the
    asset's record. This module gives the effect of the two push handlers
    that fill it and the three queries that read it, as functions of the
    cache; the client class runs the handlers' loops against them. */
module Actives {
  import opened PyJson

  /** Categories keep the order in which they were first written (the outer
      dict's insertion order, which the generic scan of `get_active`
      follows); inside a category only lookups happen, so a map suffices. */
  datatype Cache = Cache(order: seq<string>, cats: map<string, map<StrForm, Json>>)

  const EMPTY_CACHE: Cache := Cache([], map[])

  /** `order` lists each category of `cats` exactly once. */
  ghost predicate WellFormed(c: Cache) {
    && (forall k :: k in c.cats <==> k in c.order)
    && (forall i, j :: 0 <= i < j < |c.order| ==> c.order[i] != c.order[j])
  }

  /** `cache.get(cat, {}).get(key)`. */
  function Get(c: Cache, cat: string, key: StrForm): Option<Json> {
    if cat in c.cats && key in c.cats[cat] then Some(c.cats[cat][key]) else None
  }

  /** `cache[cat][key] = v` on the defaultdict. */
  function Store(c: Cache, cat: string, key: StrForm, v: Json): (r: Cache)
    ensures WellFormed(c) ==> WellFormed(r)
    ensures Get(r, cat, key) == Some(v)
    ensures forall cat', key' | cat' != cat || key' != key :: Get(r, cat', key') == Get(c, cat', key')
    ensures r.cats.Keys == c.cats.Keys + {cat}
    ensures cat in c.cats ==> r.order == c.order
    ensures cat !in c.cats ==> r.order == c.order + [cat]
  {
    if cat in c.cats then Cache(c.order, c.cats[cat := c.cats[cat][key := v]])
    else Cache(c.order + [cat], c.cats[cat := map[key := v]])
  }

  // ------------------------------------------- underlying-list-changed

  const UNDERLYING_TYPES: seq<string> := ["digital-option", "turbo-option", "binary-option", "blitz-option"]

  /** Index of the first of `types` that `in` finds in `name`. */
  function FirstMatch(name: Json, types: seq<string>): (r: Option<nat>)
    ensures r.Some? ==> r.value < |types| && PyIn(types[r.value], name) == Some(true)
    ensures r.Some? ==> forall j :: 0 <= j < r.value ==> PyIn(types[j], name) != Some(true)
    ensures r.None? <==> forall j :: 0 <= j < |types| ==> PyIn(types[j], name) != Some(true)
  {
    if types == [] then None
    else if PyIn(types[0], name) == Some(true) then Some(0)
    else match FirstMatch(name, types[1..])
      case None => None
      case Some(i) => Some(i + 1)
  }

  /** The category an `underlying-list-changed` push is filed under: the
      first of the four type names found in its `msg.name` by `in`, else
      `"unknown"`; `None` where the `in` test raises (a name that is
      neither a string, a list nor a dict). */
  function UnderlyingCategory(name: Json): (r: Option<string>)
    ensures r.None? <==> !(name.Str? || name.Arr? || name.Obj?)
    ensures r.Some? && r.value != "unknown" ==>
              exists i :: 0 <= i < |UNDERLYING_TYPES| && r.value == UNDERLYING_TYPES[i]
                          && PyIn(UNDERLYING_TYPES[i], name) == Some(true)
                          && forall j :: 0 <= j < i ==> PyIn(UNDERLYING_TYPES[j], name) == Some(false)
    ensures r == Some("unknown") <==>
              r.Some? && forall i :: 0 <= i < |UNDERLYING_TYPES| ==> PyIn(UNDERLYING_TYPES[i], name) == Some(false)
  {
    if !(name.Str? || name.Arr? || name.Obj?) then None
    else
      UnknownIsNoType();
      match FirstMatch(name, UNDERLYING_TYPES)
      case Some(i) => Some(UNDERLYING_TYPES[i])
      case None => Some("unknown")
  }

  lemma UnknownIsNoType()
    ensures forall i :: 0 <= i < |UNDERLYING_TYPES| ==> UNDERLYING_TYPES[i] != "unknown"
  {
    assert UNDERLYING_TYPES[0][0] != 'u' && UNDERLYING_TYPES[1][0] != 'u';
    assert UNDERLYING_TYPES[2][0] != 'u' && UNDERLYING_TYPES[3][0] != 'u';
  }

  /** `str(item.get("active_id"))`. */
  function ItemKey(item: Json): StrForm
    requires item.Obj?
  {
    PyStr(GetOr(item.fields, "active_id", Null))
  }

  /** The cached record: the item itself, its `active_type` set to the
      category (the handler writes the key after storing the same dict). */
  function Tagged(item: Json, cat: string): (r: Json)
    requires item.Obj?
    ensures r.Obj? && Lookup(r.fields, "active_type") == Some(Str(cat))
    ensures forall k | k != "active_type" :: Lookup(r.fields, k) == Lookup(item.fields, k)
  {
    forall k ensures Lookup(Put(item.fields, "active_type", Str(cat)), k)
                     == if k == "active_type" then Some(Str(cat)) else Lookup(item.fields, k) {
      PutLookup(item.fields, "active_type", Str(cat), k);
    }
    Obj(Put(item.fields, "active_type", Str(cat)))
  }

  /** One pass of the loop over `underlying` on a dict item: stored under
      its `str(active_id)` unless that is empty. */
  function StoreItem(c: Cache, cat: string, item: Json): Cache
    requires item.Obj?
  {
    if NonEmpty(ItemKey(item)) then Store(c, cat, ItemKey(item), Tagged(item, cat)) else c
  }

  /** The loop over `underlying`: an item whose `str(active_id)` is non-empty
      is stored; the first item that is not a dict raises at `item.get`,
      which the handler catches, so the rest of the list is skipped. */
  function StoreItems(c: Cache, cat: string, items: seq<Json>): Cache
    decreases |items|
  {
    if items == [] then c
    else if !items[0].Obj? then c
    else
      var c' := StoreItem(c, cat, items[0]);
      StoreItems(c', cat, items[1..])
  }

  /** What the push handler leaves in the cache. */
  function UnderlyingSpec(c: Cache, message: Json): Cache {
    if !message.Obj? then c
    else
      var msg := GetOr(message.fields, "msg", EMPTY_OBJ);
      if !msg.Obj? then c
      else match UnderlyingCategory(GetOr(msg.fields, "name", Str("")))
        case None => c
        case Some(cat) => StoreItems(c, cat, ListItems(msg.fields, "underlying"))
  }

  /** Some dict among `items` has `key` as its `str(active_id)`. */
  ghost predicate Listed(items: seq<Json>, key: StrForm) {
    exists i :: 0 <= i < |items| && items[i].Obj? && ItemKey(items[i]) == key
  }

  lemma {:induction false} StoreItemsWellFormed(c: Cache, cat: string, items: seq<Json>)
    requires WellFormed(c)
    ensures WellFormed(StoreItems(c, cat, items))
    decreases |items|
  {
    if items != [] && items[0].Obj? {
      var c' := StoreItem(c, cat, items[0]);
      StoreItemsWellFormed(c', cat, items[1..]);
    }
  }

  /** Other categories, and ids of the same category that the list does not
      name, keep their records. */
  lemma {:induction false} StoreItemsFrame(c: Cache, cat: string, items: seq<Json>, cat': string, key: StrForm)
    requires cat' != cat || !Listed(items, key)
    ensures Get(StoreItems(c, cat, items), cat', key) == Get(c, cat', key)
    decreases |items|
  {
    if items != [] && items[0].Obj? {
      var c' := StoreItem(c, cat, items[0]);
      if cat' == cat {
        assert ItemKey(items[0]) != key;
        forall i | 0 <= i < |items[1..]| && items[1..][i].Obj? ensures ItemKey(items[1..][i]) != key {
          assert items[1..][i] == items[i + 1];
        }
      }
      StoreItemsFrame(c', cat, items[1..], cat', key);
    }
  }

  /** Every listed item is stored under its `str(active_id)`, with its
      `active_type` overwritten to the category, when no later item of the
      list has the same id (a later one overwrites it) and no earlier item
      aborts the loop. */
  lemma {:induction false} StoreItemsStores(c: Cache, cat: string, items: seq<Json>, i: nat)
    requires i < |items| && forall j :: 0 <= j <= i ==> items[j].Obj?
    requires NonEmpty(ItemKey(items[i]))
    requires forall j :: i < j < |items| && items[j].Obj? ==> ItemKey(items[j]) != ItemKey(items[i])
    ensures Get(StoreItems(c, cat, items), cat, ItemKey(items[i])) == Some(Tagged(items[i], cat))
    decreases |items|
  {
    var c' := StoreItem(c, cat, items[0]);
    var rest := items[1..];
    StoreItemsCons(c, cat, items);
    if i == 0 {
      LaterKeysDiffer(items);
      StoreItemsFrame(c', cat, rest, cat, ItemKey(items[0]));
      StoreItemGet(c, cat, items[0]);
    } else {
      TailRequires(items, i);
      StoreItemsStores(c', cat, rest, i - 1);
    }
  }

  lemma StoreItemsCons(c: Cache, cat: string, items: seq<Json>)
    requires items != [] && items[0].Obj?
    ensures StoreItems(c, cat, items) == StoreItems(StoreItem(c, cat, items[0]), cat, items[1..])
  {
  }

  lemma StoreItemGet(c: Cache, cat: string, item: Json)
    requires item.Obj? && NonEmpty(ItemKey(item))
    ensures Get(StoreItem(c, cat, item), cat, ItemKey(item)) == Some(Tagged(item, cat))
  {
  }

  lemma LaterKeysDiffer(items: seq<Json>)
    requires items != [] && items[0].Obj?
    requires forall j :: 0 < j < |items| && items[j].Obj? ==> ItemKey(items[j]) != ItemKey(items[0])
    ensures !Listed(items[1..], ItemKey(items[0]))
  {
    forall j | 0 <= j < |items[1..]| && items[1..][j].Obj? ensures ItemKey(items[1..][j]) != ItemKey(items[0]) {
      assert items[1..][j] == items[j + 1];
    }
  }

  lemma TailRequires(items: seq<Json>, i: nat)
    requires 0 < i < |items| && forall j :: 0 <= j <= i ==> items[j].Obj?
    requires forall j :: i < j < |items| && items[j].Obj? ==> ItemKey(items[j]) != ItemKey(items[i])
    ensures var rest := items[1..];
            && rest[i - 1] == items[i]
            && (forall j :: 0 <= j <= i - 1 ==> rest[j].Obj?)
            && (forall j :: i - 1 < j < |rest| && rest[j].Obj? ==> ItemKey(rest[j]) != ItemKey(rest[i - 1]))
  {
    var rest := items[1..];
    forall j | 0 <= j <= i - 1 ensures rest[j].Obj? {
      assert rest[j] == items[j + 1];
    }
    forall j | i - 1 < j < |rest| && rest[j].Obj? ensures ItemKey(rest[j]) != ItemKey(rest[i - 1]) {
      assert rest[j] == items[j + 1];
    }
  }

  /** The quirk of `str(None)`: a dict item without `active_id` is stored
      under the key `"None"`, and the last such item wins. */
  lemma MissingIdStoredUnderNone(c: Cache, cat: string, item: Json)
    requires item.Obj? && !HasKey(item.fields, "active_id")
    ensures StoreItems(c, cat, [item]) == Store(c, cat, Chars("None"), Tagged(item, cat))
  {
    assert ItemKey(item) == Chars("None");
  }

  /** A string at most as long as `t` contains `t` only by being it. */
  lemma {:induction false} ContainsNotShorter(s: string, t: string)
    requires |t| >= |s|
    ensures Contains(s, t) <==> t == s
  {
    if s != [] && !(t <= s) {
      ContainsNotShorter(s[1..], t);
    }
  }

  /** The tests run in a fixed order: a name holding `digital-option` is
      digital whatever else it holds. */
  lemma DigitalTestedFirst(rest: string)
    ensures UnderlyingCategory(Str("digital-option" + rest)) == Some("digital-option")
  {
    assert "digital-option" <= "digital-option" + rest;
  }

  /** A bare type name files under itself. */
  lemma TurboName()
    ensures UnderlyingCategory(Str("turbo-option")) == Some("turbo-option")
  {
    ContainsNotShorter("turbo-option", "digital-option");
    assert "turbo-option" <= "turbo-option";
    assert PyIn(UNDERLYING_TYPES[0], Str("turbo-option")) == Some(false);
    assert PyIn(UNDERLYING_TYPES[1], Str("turbo-option")) == Some(true);
  }

  /** A push whose `msg` has no `name` tests the empty string and is filed
      as `unknown`; a numeric name makes the handler raise. */
  lemma NamelessIsUnknown()
    ensures UnderlyingCategory(Str("")) == Some("unknown")
    ensures UnderlyingCategory(Int(3)) == None
  {
    forall i | 0 <= i < |UNDERLYING_TYPES| ensures PyIn(UNDERLYING_TYPES[i], Str("")) == Some(false) {
      ContainsNotShorter("", UNDERLYING_TYPES[i]);
    }
  }

  // ------------------------------------------------- initialization-data

  /** The record stored for one entry of a category's `actives`, or `None`
      where the handler raises: `"active_type" in a_data` is a type error
      on a number, `None` or a boolean, and the item assignment that follows
      a negative answer is one on a string or a list. */
  function InitEntry(data: Json, cat: string): (r: Option<Json>)
    ensures data.Obj? ==> r.Some? && r.value.Obj?
    ensures data.Obj? && HasKey(data.fields, "active_type") ==> r == Some(data)
    ensures data.Obj? && !HasKey(data.fields, "active_type") ==>
              Lookup(r.value.fields, "active_type") == Some(Str(cat))
              && forall k | k != "active_type" :: Lookup(r.value.fields, k) == Lookup(data.fields, k)
    ensures r.Some? <==> data.Obj? || PyIn("active_type", data) == Some(true)
  {
    match PyIn("active_type", data)
    case None => None
    case Some(present) =>
      if present then Some(data)
      else if data.Obj? then Some(Tagged(data, cat))
      else None
  }

  /** How far the handler's loops got: the cache, and whether they ran to
      the end (`ok`) or an exception cut them short. */
  datatype Progress = Progress(cache: Cache, ok: bool)

  /** The inner loop over one category's `actives` dict. */
  function InitActives(c: Cache, cat: string, actives: seq<Field>): Progress
    decreases |actives|
  {
    if actives == [] then Progress(c, true)
    else match InitEntry(actives[0].val, cat)
      case None => Progress(c, false)
      case Some(rec) => InitActives(Store(c, cat, Chars(actives[0].key), rec), cat, actives[1..])
  }

  /** `category_data.get("actives")` when the category's value is a dict
      and that is a dict too; other categories are skipped. */
  function ActivesOf(data: Json): Option<seq<Field>> {
    if data.Obj? then
      var a := GetOr(data.fields, "actives", Null);
      if a.Obj? then Some(a.fields) else None
    else None
  }

  /** The outer loop over the categories of `msg`. */
  function InitCategories(c: Cache, cats: seq<Field>): Progress
    decreases |cats|
  {
    if cats == [] then Progress(c, true)
    else match ActivesOf(cats[0].val)
      case None => InitCategories(c, cats[1..])
      case Some(actives) =>
        var p := InitActives(c, cats[0].key, actives);
        if p.ok then InitCategories(p.cache, cats[1..]) else p
  }

  /** What `initialization-data` leaves in the cache; `msg.items()` raises
      on anything but a dict. */
  function InitSpec(c: Cache, message: Json): Cache {
    if !message.Obj? then c
    else
      var msg := GetOr(message.fields, "msg", EMPTY_OBJ);
      if msg.Obj? then InitCategories(c, msg.fields).cache else c
  }

  lemma {:induction false} InitActivesWellFormed(c: Cache, cat: string, actives: seq<Field>)
    requires WellFormed(c)
    ensures WellFormed(InitActives(c, cat, actives).cache)
    decreases |actives|
  {
    if actives != [] {
      match InitEntry(actives[0].val, cat)
      case None =>
      case Some(rec) => InitActivesWellFormed(Store(c, cat, Chars(actives[0].key), rec), cat, actives[1..]);
    }
  }

  lemma {:induction false} InitCategoriesWellFormed(c: Cache, cats: seq<Field>)
    requires WellFormed(c)
    ensures WellFormed(InitCategories(c, cats).cache)
    decreases |cats|
  {
    if cats != [] {
      match ActivesOf(cats[0].val)
      case None => InitCategoriesWellFormed(c, cats[1..]);
      case Some(actives) =>
        InitActivesWellFormed(c, cats[0].key, actives);
        var p := InitActives(c, cats[0].key, actives);
        if p.ok {
          InitCategoriesWellFormed(p.cache, cats[1..]);
        }
    }
  }

  /** The inner loop writes only its own category. */
  lemma {:induction false} InitActivesFrame(c: Cache, cat: string, actives: seq<Field>, cat': string, key: StrForm)
    requires cat' != cat
    ensures Get(InitActives(c, cat, actives).cache, cat', key) == Get(c, cat', key)
    decreases |actives|
  {
    if actives != [] {
      match InitEntry(actives[0].val, cat)
      case None =>
      case Some(rec) => InitActivesFrame(Store(c, cat, Chars(actives[0].key), rec), cat, actives[1..], cat', key);
    }
  }

  /** Categories the message does not name are left as they were. */
  lemma {:induction false} InitCategoriesFrame(c: Cache, cats: seq<Field>, cat': string, key: StrForm)
    requires !HasKey(cats, cat')
    ensures Get(InitCategories(c, cats).cache, cat', key) == Get(c, cat', key)
    decreases |cats|
  {
    if cats != [] {
      assert cats[0].key != cat';
      assert !HasKey(cats[1..], cat');
      match ActivesOf(cats[0].val)
      case None => InitCategoriesFrame(c, cats[1..], cat', key);
      case Some(actives) =>
        InitActivesFrame(c, cats[0].key, actives, cat', key);
        var p := InitActives(c, cats[0].key, actives);
        if p.ok {
          InitCategoriesFrame(p.cache, cats[1..], cat', key);
        }
    }
  }

  /** When the inner loop runs to the end, every entry of a category's
      `actives` dict is cached under its id, `active_type` filled in only
      where it was missing. */
  lemma {:induction false} InitActivesStores(c: Cache, cat: string, actives: seq<Field>, i: nat)
    requires DistinctKeys(actives) && i < |actives|
    requires InitActives(c, cat, actives).ok
    ensures InitEntry(actives[i].val, cat).Some?
    ensures Get(InitActives(c, cat, actives).cache, cat, Chars(actives[i].key)) == InitEntry(actives[i].val, cat)
    decreases |actives|
  {
    var rec := InitEntry(actives[0].val, cat).value;
    var c' := Store(c, cat, Chars(actives[0].key), rec);
    DistinctKeysTail(actives);
    if i == 0 {
      InitActivesKeepsUnlisted(c', cat, actives[1..], actives[0].key);
    } else {
      assert actives[1..][i - 1] == actives[i];
      InitActivesStores(c', cat, actives[1..], i - 1);
    }
  }

  lemma DistinctKeysTail(fields: seq<Field>)
    requires DistinctKeys(fields) && fields != []
    ensures DistinctKeys(fields[1..]) && !HasKey(fields[1..], fields[0].key)
  {
    forall a, b | 0 <= a < b < |fields[1..]| ensures fields[1..][a].key != fields[1..][b].key {
      assert fields[1..][a] == fields[a + 1] && fields[1..][b] == fields[b + 1];
    }
    forall k | 0 <= k < |fields[1..]| ensures fields[1..][k].key != fields[0].key {
      assert fields[1..][k] == fields[k + 1];
    }
  }

  /** When the outer loop runs to the end, every entry of every category
      whose value holds an `actives` dict is cached under that category and
      its id, as the inner loop filled it in; categories are distinct keys of
      `msg`, so no later category overwrites the entry. */
  lemma {:induction false} InitCategoriesStores(c: Cache, cats: seq<Field>, i: nat, actives: seq<Field>, j: nat)
    requires DistinctKeys(cats) && i < |cats| && ActivesOf(cats[i].val) == Some(actives)
    requires DistinctKeys(actives) && j < |actives|
    requires InitCategories(c, cats).ok
    ensures InitEntry(actives[j].val, cats[i].key).Some?
    ensures Get(InitCategories(c, cats).cache, cats[i].key, Chars(actives[j].key)) == InitEntry(actives[j].val, cats[i].key)
    decreases |cats|
  {
    DistinctKeysTail(cats);
    var c' := match ActivesOf(cats[0].val)
              case None => c
              case Some(a) => InitActives(c, cats[0].key, a).cache;
    assert InitCategories(c, cats) == InitCategories(c', cats[1..]);
    if i == 0 {
      InitActivesStores(c, cats[0].key, actives, j);
      InitCategoriesFrame(c', cats[1..], cats[0].key, Chars(actives[j].key));
    } else {
      assert cats[1..][i - 1] == cats[i];
      InitCategoriesStores(c', cats[1..], i - 1, actives, j);
    }
  }

  lemma {:induction false} InitActivesKeepsUnlisted(c: Cache, cat: string, actives: seq<Field>, key: string)
    requires !HasKey(actives, key)
    ensures Get(InitActives(c, cat, actives).cache, cat, Chars(key)) == Get(c, cat, Chars(key))
    decreases |actives|
  {
    if actives != [] {
      assert actives[0].key != key;
      assert !HasKey(actives[1..], key);
      match InitEntry(actives[0].val, cat)
      case None =>
      case Some(rec) => InitActivesKeepsUnlisted(Store(c, cat, Chars(actives[0].key), rec), cat, actives[1..], key);
    }
  }

  // ------------------------------------------------------------ get_active

  const PRIORITIES: seq<string> := ["blitz", "turbo", "binary", "digital", "digital-option"]

  /** `if data:` on `cache.get(cat, {}).get(key)`: a record that is there
      and truthy. */
  predicate Hit(c: Cache, cat: string, key: StrForm) {
    Get(c, cat, key).Some? && Truthy(Get(c, cat, key).value)
  }

  /** Index of the first category of `cats` with a hit for `key`. */
  function FirstHit(c: Cache, cats: seq<string>, key: StrForm): (r: Option<nat>)
    ensures r.Some? ==> r.value < |cats| && Hit(c, cats[r.value], key)
    ensures r.Some? ==> forall j :: 0 <= j < r.value ==> !Hit(c, cats[j], key)
    ensures r.None? <==> forall j :: 0 <= j < |cats| ==> !Hit(c, cats[j], key)
  {
    if cats == [] then None
    else if Hit(c, cats[0], key) then Some(0)
    else match FirstHit(c, cats[1..], key)
      case None => None
      case Some(i) => Some(i + 1)
  }

  /** `get_active(id)` (and `check_active`, which only delegates): the first
      truthy record of the id in the priority categories, else the first one
      in any category in insertion order, else `{}`. */
  function GetActive(c: Cache, activeId: int): (r: Json)
    ensures var key := Chars(IntToString(activeId));
            forall i | 0 <= i < |PRIORITIES| && Hit(c, PRIORITIES[i], key)
                       && (forall j :: 0 <= j < i ==> !Hit(c, PRIORITIES[j], key)) ::
              r == Get(c, PRIORITIES[i], key).value
    ensures var key := Chars(IntToString(activeId));
            (forall i :: 0 <= i < |PRIORITIES| ==> !Hit(c, PRIORITIES[i], key)) ==>
              forall i | 0 <= i < |c.order| && Hit(c, c.order[i], key)
                         && (forall j :: 0 <= j < i ==> !Hit(c, c.order[j], key)) ::
                r == Get(c, c.order[i], key).value
    ensures var key := Chars(IntToString(activeId));
            ((forall i :: 0 <= i < |PRIORITIES| ==> !Hit(c, PRIORITIES[i], key))
             && (forall i :: 0 <= i < |c.order| ==> !Hit(c, c.order[i], key))) ==> r == EMPTY_OBJ
    ensures r == EMPTY_OBJ || Truthy(r)
  {
    var key := Chars(IntToString(activeId));
    match FirstHit(c, PRIORITIES, key)
    case Some(i) => Get(c, PRIORITIES[i], key).value
    case None =>
      match FirstHit(c, c.order, key)
      case Some(i) => Get(c, c.order[i], key).value
      case None => EMPTY_OBJ
  }

  /** A record stored under the `"None"` key is never returned: no integer
      prints as `None`. */
  lemma NoneKeyInvisible(c: Cache, cat: string, v: Json, activeId: int)
    requires WellFormed(c)
    ensures GetActive(Store(c, cat, Chars("None"), v), activeId) == GetActive(c, activeId)
  {
    IntToStringIsNotNone(activeId);
    var key := Chars(IntToString(activeId));
    var c' := Store(c, cat, Chars("None"), v);
    assert forall k :: Hit(c', k, key) == Hit(c, k, key);
    HitsAgree(c, c', PRIORITIES, key);
    if FirstHit(c, PRIORITIES, key).None? {
      HitsAgree(c, c', c.order, key);
      if cat !in c.cats {
        assert !Hit(c', cat, key);
        FirstHitSkipsLast(c', c.order, cat, key);
      }
    }
  }

  lemma {:induction false} HitsAgree(c: Cache, c': Cache, cats: seq<string>, key: StrForm)
    requires forall k :: Hit(c', k, key) == Hit(c, k, key)
    ensures FirstHit(c', cats, key) == FirstHit(c, cats, key)
  {
    if cats != [] {
      HitsAgree(c, c', cats[1..], key);
    }
  }

  lemma {:induction false} FirstHitSkipsLast(c: Cache, cats: seq<string>, last: string, key: StrForm)
    requires !Hit(c, last, key)
    ensures FirstHit(c, cats + [last], key) == FirstHit(c, cats, key)
  {
    if cats != [] {
      assert (cats + [last])[1..] == cats[1..] + [last];
      FirstHitSkipsLast(c, cats[1..], last, key);
    } else {
      assert [last][1..] == [];
    }
  }

  // ------------------------------------------------- derived queries

  /** `get_profit_percent` applied to the record `get_active` returned: the
      `profit_percent` value whenever the key is present (read outside any
      `try`, so a non-dict record that passes the `in` test raises);
      otherwise `100 - int(option.profit.commission)`, and 0 wherever that
      path is missing or raises. */
  function ProfitPercent(data: Json): (r: Result<Json>)
    ensures r.Raise? <==> PyIn("profit_percent", data) != Some(false) && !data.Obj?
    ensures data.Obj? && HasKey(data.fields, "profit_percent") ==> r == Ok(Lookup(data.fields, "profit_percent").value)
    ensures r.Ok? && !(data.Obj? && HasKey(data.fields, "profit_percent")) ==> r.value == Int(CommissionPercent(data))
    ensures !data.Obj? && PyIn("profit_percent", data) == Some(false) ==> r == Ok(Int(0))
  {
    match PyIn("profit_percent", data)
    case None => Raise("TypeError")
    case Some(present) =>
      if present then
        if data.Obj? then Ok(Lookup(data.fields, "profit_percent").value) else Raise("TypeError")
      else Ok(Int(CommissionPercent(data)))
  }

  /** The guarded commission path of `get_profit_percent`. */
  function CommissionPercent(data: Json): int {
    if !data.Obj? then 0
    else
      var option := GetOr(data.fields, "option", EMPTY_OBJ);
      if !option.Obj? then 0
      else
        var profit := GetOr(option.fields, "profit", EMPTY_OBJ);
        if !profit.Obj? then 0
        else
          var commission := GetOr(profit.fields, "commission", Null);
          if commission.Null? then 0
          else match PyInt(commission)
            case None => 0
            case Some(n) => 100 - n
  }

  /** A dict record without `profit_percent` whose `option.profit.commission`
      is set and accepted by `int()` pays `100 - int(commission)`. */
  lemma ProfitFromCommission(fields: seq<Field>, option: seq<Field>, profit: seq<Field>, commission: Json, n: int)
    requires !HasKey(fields, "profit_percent")
    requires Lookup(fields, "option") == Some(Obj(option)) && Lookup(option, "profit") == Some(Obj(profit))
    requires Lookup(profit, "commission") == Some(commission) && !commission.Null? && PyInt(commission) == Some(n)
    ensures ProfitPercent(Obj(fields)) == Ok(Int(100 - n))
  {
  }

  /** The commission path of `get_profit_percent` finds nothing to convert:
      a level is missing or not a dict (`.get` raises, the bare `except`
      catches it), the commission is `None`, or `int()` raises on it. */
  ghost predicate NoCommission(fields: seq<Field>) {
    match Lookup(fields, "option")
    case None => true
    case Some(option) =>
      || !option.Obj?
      || match Lookup(option.fields, "profit")
         case None => true
         case Some(profit) =>
           || !profit.Obj?
           || match Lookup(profit.fields, "commission")
              case None => true
              case Some(commission) => commission.Null? || PyInt(commission).None?
  }

  /** A dict record with neither `profit_percent` nor a usable commission
      pays 0. */
  lemma ProfitDefault(fields: seq<Field>)
    requires !HasKey(fields, "profit_percent") && NoCommission(fields)
    ensures ProfitPercent(Obj(fields)) == Ok(Int(0))
  {
  }

  /** With `int()` accepting `13.9` and `"13"`, a float or numeric-string
      commission of 13 pays 87 as well. */
  lemma CommissionConverted(option: seq<Field>)
    requires option == [Field("profit", Obj([Field("commission", Float(13.9))]))]
             || option == [Field("profit", Obj([Field("commission", Str("13"))]))]
    ensures ProfitPercent(Obj([Field("option", Obj(option))])) == Ok(Int(87))
  {
    assert ParseInt("13") == Some(13) by { ParseIntOfIntToString(13); assert IntToString(13) == "13" by {
      assert NatToString(1) == "1";
      assert NatToString(13) == NatToString(1) + [DigitChar(3)];
    } }
    assert Trunc(13.9) == 13;
  }

  /** With a commission of 13 the payout is 87. */
  lemma CommissionExample()
    ensures ProfitPercent(Obj([Field("option", Obj([Field("profit", Obj([Field("commission", Int(13))]))]))])) == Ok(Int(87))
  {
  }

  lemma ProfitWithoutRecord()
    ensures ProfitPercent(EMPTY_OBJ) == Ok(Int(0))
  {
  }

  /** `is_active_open`: `info.get("enabled", False) and not
      info.get("is_suspended", True)`. Python's `and` returns the falsy
      `enabled` value itself, else the negation; `.get` raises on a
      record that is not a dict. */
  function IsActiveOpen(info: Json): (r: Result<Json>)
    ensures r.Raise? <==> !info.Obj?
    ensures r.Ok? ==> (Truthy(r.value) <==>
                         Truthy(GetOr(info.fields, "enabled", Bool(false)))
                         && HasKey(info.fields, "is_suspended")
                         && !Truthy(Lookup(info.fields, "is_suspended").value))
  {
    if !info.Obj? then Raise("AttributeError")
    else
      var enabled := GetOr(info.fields, "enabled", Bool(false));
      if !Truthy(enabled) then Ok(enabled)
      else Ok(Bool(!Truthy(GetOr(info.fields, "is_suspended", Bool(true)))))
  }

  /** A record with no `is_suspended` counts as closed, even when enabled. */
  lemma MissingSuspendedIsClosed(info: Json)
    requires info.Obj? && !HasKey(info.fields, "is_suspended")
    ensures IsActiveOpen(info).Ok? && !Truthy(IsActiveOpen(info).value)
  {
  }

  // ------------------------------------------------------------ examples

  function Record(id: int, name: string, suspended: bool, activeType: string): Json {
    Obj([Field("id", Int(id)), Field("name", Str(name)), Field("enabled", Bool(true)),
         Field("is_suspended", Bool(suspended)), Field("active_type", Str(activeType))])
  }

  /** With `EURUSD` (76) open in `blitz` and suspended in `binary`, the
      lookup picks the open blitz record and reports it open. */
  lemma StrategyAccessExample()
    ensures var blitz := Record(76, "front.EURUSD-OTC", false, "blitz");
            var binary := Record(76, "front.EURUSD", true, "binary");
            var c := Store(Store(EMPTY_CACHE, "blitz", Chars("76"), blitz), "binary", Chars("76"), binary);
            GetActive(c, 76) == blitz && IsActiveOpen(GetActive(c, 76)) == Ok(Bool(true))
  {
    var blitz := Record(76, "front.EURUSD-OTC", false, "blitz");
    var binary := Record(76, "front.EURUSD", true, "binary");
    var c1 := Store(EMPTY_CACHE, "blitz", Chars("76"), blitz);
    var c := Store(c1, "binary", Chars("76"), binary);
    assert IntToString(76) == "76" by {
      assert NatToString(7) == "7";
      assert NatToString(76) == NatToString(7) + [DigitChar(6)];
    }
    assert Get(c, "blitz", Chars("76")) == Get(c1, "blitz", Chars("76")) == Some(blitz);
    assert Truthy(blitz);
    assert PRIORITIES[0] == "blitz";
    assert Hit(c, PRIORITIES[0], Chars(IntToString(76)));
    assert GetActive(c, 76) == blitz;
    RecordOpen(76, "front.EURUSD-OTC", "blitz");
  }

  /** An enabled record that is not suspended is open. */
  lemma RecordOpen(id: int, name: string, activeType: string)
    ensures IsActiveOpen(Record(id, name, false, activeType)) == Ok(Bool(true))
  {
    var r := Record(id, name, false, activeType);
    LookupAt(r.fields, 2, "enabled");
    LookupAt(r.fields, 3, "is_suspended");
  }

  /** One `initialization-data` push carrying the same id in two
      categories (`turbo` open and `binary` suspended, in the parser test)
      keeps both records apart, each tagged with its own category. */
  lemma SameIdTwoCategories(a: string, b: string, id: string, ra: Json, rb: Json)
    requires a != b
    requires ra.Obj? && !HasKey(ra.fields, "active_type") && rb.Obj? && !HasKey(rb.fields, "active_type")
    ensures var msg := Obj([Category(a, id, ra), Category(b, id, rb)]);
            var c := InitSpec(EMPTY_CACHE, Obj([Field("name", Str("initialization-data")), Field("msg", msg)]));
            && Get(c, a, Chars(id)) == Some(Tagged(ra, a))
            && Get(c, b, Chars(id)) == Some(Tagged(rb, b))
            && c.order == [a, b]
  {
    var message := Obj([Field("name", Str("initialization-data")),
                        Field("msg", Obj([Category(a, id, ra), Category(b, id, rb)]))]);
    LookupAt(message.fields, 1, "msg");
    var c2 := TwoCategories(EMPTY_CACHE, a, b, id, ra, rb);
    TwoStores(a, b, id, Tagged(ra, a), Tagged(rb, b));
  }

  /** A category of `initialization-data` whose `actives` hold one record. */
  function Category(cat: string, id: string, rec: Json): Field {
    Field(cat, Obj([Field("actives", Obj([Field(id, rec)]))]))
  }

  /** Two stores into distinct categories of an empty cache keep both
      values and list the categories in store order. */
  lemma TwoStores(a: string, b: string, id: string, va: Json, vb: Json)
    requires a != b
    ensures var c := Store(Store(EMPTY_CACHE, a, Chars(id), va), b, Chars(id), vb);
            Get(c, a, Chars(id)) == Some(va) && Get(c, b, Chars(id)) == Some(vb) && c.order == [a, b]
  {
    var c1 := Store(EMPTY_CACHE, a, Chars(id), va);
    assert c1.order == [a] && b !in c1.cats;
  }

  /** Two categories holding one untagged record each. */
  lemma TwoCategories(c: Cache, a: string, b: string, id: string, ra: Json, rb: Json) returns (r: Cache)
    requires ra.Obj? && !HasKey(ra.fields, "active_type") && rb.Obj? && !HasKey(rb.fields, "active_type")
    ensures r == Store(Store(c, a, Chars(id), Tagged(ra, a)), b, Chars(id), Tagged(rb, b))
    ensures InitCategories(c, [Category(a, id, ra), Category(b, id, rb)]) == Progress(r, true)
  {
    var c1 := SingleCategory(c, a, id, ra);
    r := SingleCategory(c1, b, id, rb);
    CategoryPair(c, Category(a, id, ra), Category(b, id, rb), c1, r);
  }

  /** The outer loop over two categories whose inner loops end normally. */
  lemma CategoryPair(c: Cache, fa: Field, fb: Field, c1: Cache, c2: Cache)
    requires ActivesOf(fa.val).Some? && InitActives(c, fa.key, ActivesOf(fa.val).value) == Progress(c1, true)
    requires ActivesOf(fb.val).Some? && InitActives(c1, fb.key, ActivesOf(fb.val).value) == Progress(c2, true)
    ensures InitCategories(c, [fa, fb]) == Progress(c2, true)
  {
    assert [fa, fb][0] == fa && [fa, fb][1..] == [fb];
    assert [fb][0] == fb && [fb][1..] == [];
    assert InitCategories(c2, []) == Progress(c2, true);
    assert InitCategories(c1, [fb]) == Progress(c2, true);
  }

  /** A category holding one untagged record stores it tagged. */
  lemma SingleCategory(c: Cache, cat: string, id: string, rec: Json) returns (r: Cache)
    requires rec.Obj? && !HasKey(rec.fields, "active_type")
    ensures r == Store(c, cat, Chars(id), Tagged(rec, cat))
    ensures InitActives(c, cat, [Field(id, rec)]) == Progress(r, true)
    ensures ActivesOf(Category(cat, id, rec).val) == Some([Field(id, rec)])
  {
    r := Store(c, cat, Chars(id), Tagged(rec, cat));
    assert InitEntry(rec, cat) == Some(Tagged(rec, cat));
  }
}
