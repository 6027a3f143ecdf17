/** The edge-KV storage adapter of workers/src/storage/kv-adapter.ts: node
    and list-page keys, `listNodes` paging over a cached page, `searchNodes`
    filters, and node upsert and delete. The KV namespace is a map from key
    to stored JSON value; its own expiry is not part of this model. */
module KVAdapter {
  import opened Wrappers
  import opened Strings
  import opened Seqs

  const DEFAULT_PREFIX: string := "qa"
  const CACHE_TTL: int := 3600
  const DEFAULT_PAGE: int := 1
  const DEFAULT_PER_PAGE: int := 20
  const MAX_PER_PAGE: int := 100

  datatype ItemType = QUESTION | OKR

  /** `QAItem`; ISO time stamps are milliseconds. */
  datatype QAItem = QAItem(
    id: string, kind: ItemType, title: string, content: string, level: int, tags: seq<string>,
    linkedQuestionIds: seq<string>, linkedOKRIds: seq<string>, status: string, createdAt: int, updatedAt: int)

  /** What a key can hold: a node, or a cached list page. */
  datatype KVValue = NodeValue(node: QAItem) | ListValue(items: seq<QAItem>, total: int)

  datatype NodeQuery = NodeQuery(page: Option<int>, perPage: Option<int>)

  datatype SearchQuery = SearchQuery(text: Option<string>, tags: Option<seq<string>>, kind: Option<ItemType>)

  /** `StorageResult<QAItem[]>` */
  datatype StorageResult = StorageResult(data: seq<QAItem>, total: int, page: int, perPage: int, hasMore: bool)

  /** `config.owner || 'qa'` */
  function PrefixOr(owner: Option<string>): (p: string)
    ensures Truthy(owner) ==> p == owner.value
    ensures !Truthy(owner) ==> p == DEFAULT_PREFIX
  {
    if Truthy(owner) then owner.value else DEFAULT_PREFIX
  }

  /** `${prefix}:node:${id}` */
  function NodeKey(prefix: string, id: string): string {
    prefix + ":node:" + id
  }

  /** `${prefix}:list:${page}:${perPage}` */
  function ListKey(prefix: string, page: int, perPage: int): string {
    prefix + ":list:" + IntToString(page) + ":" + IntToString(perPage)
  }

  /** Distinct ids have distinct node keys, and no node key is a list key,
      under one prefix. */
  lemma KeysDistinct(prefix: string, id1: string, id2: string, page: int, perPage: int)
    ensures NodeKey(prefix, id1) == NodeKey(prefix, id2) ==> id1 == id2
    ensures NodeKey(prefix, id1) != ListKey(prefix, page, perPage)
  {
    var n := |prefix| + 6;
    if NodeKey(prefix, id1) == NodeKey(prefix, id2) {
      assert id1 == NodeKey(prefix, id1)[n..];
      assert id2 == NodeKey(prefix, id2)[n..];
    }
    assert NodeKey(prefix, id1)[|prefix| + 1] == 'n';
    assert ListKey(prefix, page, perPage)[|prefix| + 1] == 'l';
  }

  /** `query.page || 1` */
  function PageOr(page: Option<int>): (p: int)
    ensures page.Some? && page.value != 0 ==> p == page.value
    ensures page.None? || page.value == 0 ==> p == DEFAULT_PAGE
    ensures p != 0
  {
    if page.Some? && page.value != 0 then page.value else DEFAULT_PAGE
  }

  /** `Math.min(100, query.perPage || 20)` */
  function PerPageOr(perPage: Option<int>): (n: int)
    ensures n <= MAX_PER_PAGE && n != 0
    ensures perPage.None? || perPage.value == 0 ==> n == DEFAULT_PER_PAGE
    ensures perPage.Some? && perPage.value != 0 ==> n == if perPage.value < MAX_PER_PAGE then perPage.value else MAX_PER_PAGE
    ensures perPage.Some? && perPage.value > 0 ==> 1 <= n
  {
    var asked := if perPage.Some? && perPage.value != 0 then perPage.value else DEFAULT_PER_PAGE;
    if asked < MAX_PER_PAGE then asked else MAX_PER_PAGE
  }

  /** An item passes the type filter. An absent type excludes nothing. */
  predicate TypeMatches(q: SearchQuery, item: QAItem) {
    q.kind.None? || item.kind == q.kind.value
  }

  /** An item shares a tag with the query. Absent or empty tags exclude nothing. */
  predicate TagsMatch(q: SearchQuery, item: QAItem) {
    q.tags.None? || q.tags.value == [] || exists i :: 0 <= i < |q.tags.value| && q.tags.value[i] in item.tags
  }

  /** An item's lowercased title or content contains the lowercased text.
      Absent or empty text excludes nothing. */
  predicate TextMatches(q: SearchQuery, item: QAItem) {
    !Truthy(q.text) || Contains(Lower(item.title), Lower(q.text.value)) || Contains(Lower(item.content), Lower(q.text.value))
  }

  /** An item passes every filter the query supplies. */
  predicate Matches(q: SearchQuery, item: QAItem) {
    TypeMatches(q, item) && TagsMatch(q, item) && TextMatches(q, item)
  }

  /** The empty query keeps every item. */
  lemma EmptyQueryKeepsAll(items: seq<QAItem>)
    ensures Filter(items, (x: QAItem) => Matches(SearchQuery(None, None, None), x)) == items
  {
    FilterKeepsAll(items, (x: QAItem) => Matches(SearchQuery(None, None, None), x));
  }

  /** Search keeps exactly the matching items, in order. */
  lemma SearchKeepsExactlyMatches(items: seq<QAItem>, q: SearchQuery, x: QAItem)
    ensures x in Filter(items, (y: QAItem) => Matches(q, y)) <==> x in items && Matches(q, x)
  {
    FilterMembership(items, (y: QAItem) => Matches(q, y), x);
  }

  /** The adapter over one KV namespace. */
  class Adapter {
    var kv: map<string, KVValue>
    const prefix: string
    const cacheTTL: int

    constructor (store: map<string, KVValue>, owner: Option<string>)
      ensures kv == store && prefix == PrefixOr(owner) && cacheTTL == CACHE_TTL
    {
      kv := store;
      prefix := PrefixOr(owner);
      cacheTTL := CACHE_TTL;
    }

    /** `getNode`: the node stored under the id's key, if any. */
    method GetNode(id: string) returns (r: Option<QAItem>)
      ensures r.Some? <==> NodeKey(prefix, id) in kv && kv[NodeKey(prefix, id)].NodeValue?
      ensures r.Some? ==> kv[NodeKey(prefix, id)] == NodeValue(r.value)
    {
      var key := NodeKey(prefix, id);
      if key in kv && kv[key].NodeValue? {
        return Some(kv[key].node);
      }
      r := None;
    }

    /** `listNodes`: the page cached under the page's key, with `hasMore`
        telling whether items lie past this page; a miss is an empty page. */
    method ListNodes(query: NodeQuery) returns (r: StorageResult)
      ensures r.page == PageOr(query.page) && r.perPage == PerPageOr(query.perPage)
      ensures var key := ListKey(prefix, r.page, r.perPage);
        if key in kv && kv[key].ListValue? then
          r.data == kv[key].items && r.total == kv[key].total && (r.hasMore <==> r.page * r.perPage < r.total)
        else
          r.data == [] && r.total == 0 && !r.hasMore
    {
      var page := PageOr(query.page);
      var perPage := PerPageOr(query.perPage);
      var start := (page - 1) * perPage;
      var end := start + perPage;
      var listKey := ListKey(prefix, page, perPage);
      if listKey in kv && kv[listKey].ListValue? {
        var cached := kv[listKey];
        return StorageResult(cached.items, cached.total, page, perPage, end < cached.total);
      }
      r := StorageResult([], 0, page, perPage, false);
    }

    /** `upsertNode`: the node, stamped with `now`, is stored under its key
        and returned. The list-cache invalidation is empty, so cached pages
        stay as they were. */
    method UpsertNode(node: QAItem, now: int) returns (r: QAItem)
      modifies this
      ensures r == node.(updatedAt := now)
      ensures kv == old(kv)[NodeKey(prefix, node.id) := NodeValue(r)]
    {
      r := node.(updatedAt := now);
      kv := kv[NodeKey(prefix, r.id) := NodeValue(r)];
    }

    /** `deleteNode`: the id's key leaves the store. */
    method DeleteNode(id: string)
      modifies this
      ensures kv == old(kv) - {NodeKey(prefix, id)}
    {
      kv := kv - {NodeKey(prefix, id)};
    }

    /** `searchNodes`: the first cached page of 100, narrowed by each filter
        the query supplies in turn. */
    method SearchNodes(query: SearchQuery) returns (results: seq<QAItem>)
      ensures var key := ListKey(prefix, 1, MAX_PER_PAGE);
        results == Filter(if key in kv && kv[key].ListValue? then kv[key].items else [], (x: QAItem) => Matches(query, x))
    {
      var list := ListNodes(NodeQuery(None, Some(MAX_PER_PAGE)));
      var data := list.data;
      results := data;
      var byType := (x: QAItem) => TypeMatches(query, x);
      var byTags := (x: QAItem) => TypeMatches(query, x) && TagsMatch(query, x);
      var all := (x: QAItem) => Matches(query, x);
      if query.kind.Some? {
        results := Filter(results, (item: QAItem) => item.kind == query.kind.value);
        FilterFilter(data, x => true, (item: QAItem) => item.kind == query.kind.value, byType);
      } else {
        FilterFilter(data, x => true, x => true, byType);
      }
      FilterKeepsAll(data, x => true);
      assert results == Filter(data, byType);
      if query.tags.Some? && query.tags.value != [] {
        var tags := query.tags.value;
        results := Filter(results, (item: QAItem) => exists i :: 0 <= i < |tags| && tags[i] in item.tags);
        FilterFilter(data, byType, (item: QAItem) => exists i :: 0 <= i < |tags| && tags[i] in item.tags, byTags);
      } else {
        FilterFilter(data, byType, x => true, byTags);
        FilterKeepsAll(Filter(data, byType), x => true);
      }
      assert results == Filter(data, byTags);
      if Truthy(query.text) {
        var searchLower := Lower(query.text.value);
        results := Filter(results, (item: QAItem) => Contains(Lower(item.title), searchLower) || Contains(Lower(item.content), searchLower));
        FilterFilter(data, byTags, (item: QAItem) => Contains(Lower(item.title), searchLower) || Contains(Lower(item.content), searchLower), all);
      } else {
        FilterFilter(data, byTags, x => true, all);
        FilterKeepsAll(Filter(data, byTags), x => true);
      }
    }
  }

  /** After an upsert the node is found again, stamped; other nodes and
      every cached page are unchanged. */
  lemma UpsertThenGet(kv: map<string, KVValue>, prefix: string, node: QAItem, now: int, other: string, page: int, perPage: int)
    requires other != node.id
    ensures var after := kv[NodeKey(prefix, node.id) := NodeValue(node.(updatedAt := now))];
      && after[NodeKey(prefix, node.id)] == NodeValue(node.(updatedAt := now))
      && (NodeKey(prefix, other) in after <==> NodeKey(prefix, other) in kv)
      && (NodeKey(prefix, other) in kv ==> after[NodeKey(prefix, other)] == kv[NodeKey(prefix, other)])
      && (ListKey(prefix, page, perPage) in after <==> ListKey(prefix, page, perPage) in kv)
      && (ListKey(prefix, page, perPage) in kv ==> after[ListKey(prefix, page, perPage)] == kv[ListKey(prefix, page, perPage)])
  {
    KeysDistinct(prefix, node.id, other, page, perPage);
  }

  /** After a delete the node is gone; other nodes and every cached page
      are unchanged. */
  lemma DeleteThenGet(kv: map<string, KVValue>, prefix: string, id: string, other: string, page: int, perPage: int)
    requires other != id
    ensures var after := kv - {NodeKey(prefix, id)};
      && NodeKey(prefix, id) !in after
      && (NodeKey(prefix, other) in after <==> NodeKey(prefix, other) in kv)
      && (ListKey(prefix, page, perPage) in after <==> ListKey(prefix, page, perPage) in kv)
  {
    KeysDistinct(prefix, id, other, page, perPage);
  }
}
