/** The movement library (src/services/movementService.ts): the filters the
    movement query applies, the fallback to the cached list when the query
    fails, the row a custom movement inserts, and the category labels. The
    movements table is an in-memory sequence already in the query's name
    order; the query's error and the cache's content are parameters. */
module MovementService {
  import opened Common
  import opened Strings
  import opened MovementTypes

  /** `MovementQueryParams`; `None` is a missing or null parameter. */
  datatype QueryParams = QueryParams(search: Option<string>, categoryId: Option<string>, equipment: Option<string>)

  /** JavaScript truthiness of an optional text. */
  predicate Given(p: Option<string>)
  {
    p.Some? && p.value != ""
  }

  /** `t` occurs in `s`. */
  predicate Contains(s: string, t: string)
  {
    exists i :: 0 <= i <= |s| && t <= s[i..]
  }

  /** `ilike('name', '%search%')`: the search occurs in the name, ignoring ASCII case. */
  predicate NameLike(name: string, search: string)
  {
    Contains(ToUpper(name), ToUpper(search))
  }

  /** One of the conditions `fetchMovements` adds to the query. */
  datatype Filter = NameContains(search: string) | CategoryIs(categoryId: string) | EquipmentIs(equipment: string)

  predicate Passes(m: Movement, f: Filter)
  {
    match f
    case NameContains(search) => NameLike(m.name, search)
    case CategoryIs(c) => m.categoryId == Some(c)
    case EquipmentIs(e) => m.equipment == Some(e)
  }

  /** Whether a movement passes every filter the parameters switch on. */
  predicate Matches(m: Movement, params: QueryParams)
  {
    (Given(params.search) ==> NameLike(m.name, params.search.value)) &&
    (Given(params.categoryId) ==> m.categoryId == Some(params.categoryId.value)) &&
    (Given(params.equipment) ==> m.equipment == Some(params.equipment.value))
  }

  /** The rows a list of conditions selects, in table order. */
  function Select(table: seq<Movement>, filters: seq<Filter>): (r: seq<Movement>)
    ensures |r| <= |table|
    ensures forall m :: m in r <==> m in table && forall f :: f in filters ==> Passes(m, f)
    decreases |table|
  {
    if table == [] then []
    else
      var rest := Select(table[1..], filters);
      if forall f :: f in filters ==> Passes(table[0], f) then [table[0]] + rest else rest
  }

  /** The query `fetchMovements` builds, one `if` at a time, and the rows it
      selects: exactly the movements that match the given parameters. */
  method QueryFilters(params: QueryParams) returns (filters: seq<Filter>)
    ensures forall m: Movement :: (forall f :: f in filters ==> Passes(m, f)) <==> Matches(m, params)
    ensures |filters| <= 3
  {
    filters := [];
    if params.search.Some? && params.search.value != "" {
      filters := filters + [NameContains(params.search.value)];
    }
    if params.categoryId.Some? && params.categoryId.value != "" {
      filters := filters + [CategoryIs(params.categoryId.value)];
    }
    if params.equipment.Some? && params.equipment.value != "" {
      filters := filters + [EquipmentIs(params.equipment.value)];
    }
    assert forall f :: f in filters <==>
      (Given(params.search) && f == NameContains(params.search.value)) ||
      (Given(params.categoryId) && f == CategoryIs(params.categoryId.value)) ||
      (Given(params.equipment) && f == EquipmentIs(params.equipment.value));
    forall m: Movement
      ensures (forall f :: f in filters ==> Passes(m, f)) <==> Matches(m, params)
    {
      if Given(params.search) {
        assert NameContains(params.search.value) in filters;
      }
      if Given(params.categoryId) {
        assert CategoryIs(params.categoryId.value) in filters;
      }
      if Given(params.equipment) {
        assert EquipmentIs(params.equipment.value) in filters;
      }
    }
  }

  /** `fetchMovements(params)` over `table`: the query's error is thrown;
      otherwise the selected rows are returned and written to the cache. */
  method FetchMovements<E>(table: seq<Movement>, params: QueryParams, queryError: Option<E>)
    returns (r: Result<seq<Movement>, E>, cacheWrite: Option<seq<Movement>>)
    ensures queryError.Some? ==> r == Err(queryError.value) && cacheWrite.None?
    ensures queryError.None? ==> r.Ok? && cacheWrite == Some(r.value)
    ensures r.Ok? ==> forall m :: m in r.value <==> m in table && Matches(m, params)
  {
    var filters := QueryFilters(params);
    if queryError.Some? {
      return Err(queryError.value), None;
    }
    var data := Select(table, filters);
    return Ok(data), Some(data);
  }

  /** Without parameters the query returns the whole table. */
  lemma {:induction false} NoParamsSelectsAll(table: seq<Movement>)
    ensures Select(table, []) == table
    decreases |table|
  {
    if table != [] {
      NoParamsSelectsAll(table[1..]);
      assert [table[0]] + table[1..] == table;
    }
  }

  /** The `queryFn` of `useMovementList`: a failed fetch falls back to the
      cached list when there is one (an empty list counts), else rethrows.
      `cached` is `None` when the cache is missing or has no `data`. */
  function ListOrCache<E>(fetched: Result<seq<Movement>, E>, cached: Option<seq<Movement>>): (r: Result<seq<Movement>, E>)
    ensures fetched.Ok? ==> r == fetched
    ensures fetched.Err? && cached.Some? ==> r == Ok(cached.value)
    ensures fetched.Err? && cached.None? ==> r == fetched
    ensures r.Err? ==> fetched.Err? && cached.None? && r.error == fetched.error
  {
    match fetched
    case Ok(_) => fetched
    case Err(_) => if cached.Some? then Ok(cached.value) else fetched
  }

  /** The movement cache after a run of `fetchMovements` calls, starting from
      `cached`: a successful fetch overwrites it with its rows, a failed one
      leaves it as it was. */
  function CacheAfter<E>(cached: Option<seq<Movement>>, fetches: seq<Result<seq<Movement>, E>>)
    : (c: Option<seq<Movement>>)
    ensures c.None? ==> cached.None? && forall i :: 0 <= i < |fetches| ==> fetches[i].Err?
    decreases |fetches|
  {
    if fetches == [] then cached
    else
      var last := fetches[|fetches| - 1];
      if last.Ok? then Some(last.value) else CacheAfter(cached, fetches[..|fetches| - 1])
  }

  /** Once a fetch has succeeded, a failing fetch returns the rows of the last
      successful fetch before it, whatever failed in between. */
  lemma {:induction false} FallbackServesLastFetch<E>(
    cached: Option<seq<Movement>>, fetches: seq<Result<seq<Movement>, E>>, k: nat, error: E)
    requires k < |fetches| && fetches[k].Ok?
    requires forall i :: k < i < |fetches| ==> fetches[i].Err?
    ensures CacheAfter(cached, fetches) == Some(fetches[k].value)
    ensures ListOrCache(Err(error), CacheAfter(cached, fetches)) == Ok(fetches[k].value)
    decreases |fetches|
  {
    var n := |fetches| - 1;
    if k < n {
      var init := fetches[..n];
      assert forall i :: k < i < |init| ==> init[i] == fetches[i];
      FallbackServesLastFetch(cached, init, k, error);
    }
  }

  // ---------------------------------------------------------------------
  // createCustomMovement

  /** `CreateMovementPayload`; `None` is a missing or null field. */
  datatype CreateMovementPayload = CreateMovementPayload(
    name: string,
    categoryId: Option<string>,
    equipment: Option<string>,
    difficulty: Option<string>,
    instructions: Option<string>,
    videoUrl: Option<string>)

  /** The row inserted for a custom movement. */
  datatype MovementRow = MovementRow(
    name: string,
    categoryId: Option<string>,
    equipment: Option<string>,
    difficulty: Option<string>,
    instructions: Option<string>,
    videoUrl: Option<string>,
    isCustom: bool)

  function CustomMovementRow(p: CreateMovementPayload): (row: MovementRow)
    ensures row.isCustom && row.name == p.name
    ensures row.categoryId == p.categoryId && row.equipment == p.equipment && row.difficulty == p.difficulty
    ensures row.instructions == p.instructions && row.videoUrl == p.videoUrl
  {
    MovementRow(p.name, p.categoryId, p.equipment, p.difficulty, p.instructions, p.videoUrl, true)
  }

  // ---------------------------------------------------------------------
  // getMovementCategoryLabel

  /** The label given to a movement without a known category. */
  const DefaultLabel := "Genel"

  /** The position of the first category with `id`, or `|cs|`. */
  function CategoryIndex(cs: seq<MovementCategory>, id: Option<string>): (k: nat)
    ensures k <= |cs|
    ensures forall j :: 0 <= j < k ==> Some(cs[j].id) != id
    ensures k < |cs| ==> Some(cs[k].id) == id
    decreases |cs|
  {
    if cs == [] then 0
    else if Some(cs[0].id) == id then 0
    else 1 + CategoryIndex(cs[1..], id)
  }

  /** `MOVEMENT_CATEGORIES.find((c) => c.id === id)?.name ?? 'Genel'` */
  function CategoryLabel(id: Option<string>): (shown: string)
    ensures shown == DefaultLabel <==> forall j :: 0 <= j < |Categories| ==> Some(Categories[j].id) != id
    ensures forall j :: 0 <= j < |Categories| && Some(Categories[j].id) == id ==> shown == Categories[j].name
  {
    CategoryIdsDistinct();
    var k := CategoryIndex(Categories, id);
    if k < |Categories| then Categories[k].name else DefaultLabel
  }

  /** No two categories share an id, and none is named like the default label. */
  lemma CategoryIdsDistinct()
    ensures forall i, j :: 0 <= i < j < |Categories| ==> Categories[i].id != Categories[j].id
    ensures forall i :: 0 <= i < |Categories| ==> Categories[i].name != DefaultLabel
  {
    assert forall i :: 0 <= i < |Categories| ==> Categories[i].name[0] != 'G';
    forall i, j | 0 <= i < j < |Categories|
      ensures Categories[i].id != Categories[j].id
    {
      assert Categories[i].id[1] != Categories[j].id[1] || Categories[i].id[2] != Categories[j].id[2];
    }
  }

  /** Every category's own id reads as its name. */
  lemma CategoryLabelOfEach()
    ensures forall c :: c in Categories ==> CategoryLabel(Some(c.id)) == c.name
    ensures CategoryLabel(None) == DefaultLabel
  {
    forall c | c in Categories
      ensures CategoryLabel(Some(c.id)) == c.name
    {
      var j :| 0 <= j < |Categories| && Categories[j] == c;
      assert Some(Categories[j].id) == Some(c.id);
    }
  }
}
