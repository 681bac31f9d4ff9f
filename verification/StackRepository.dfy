/** The stack repository: the stored merge of occurrence counters, the
    signature-hash cache in front of the store, and the removal guard. */
module Stacks {
  import opened Common
  import opened Models
  import SystemFilter

  /** Bumped whenever the signature algorithm changes, so old cache entries miss. */
  const StackingVersion: string := "v2"
  const EntityTypeName: string := "Stack"
  /** The change message of a merge is published after this delay. */
  const ChangeDelayMilliseconds: nat := 1500

  function Min(a: int, b: int): int { if a <= b then a else b }
  function Max(a: int, b: int): int { if a >= b then a else b }

  // ------------------------------------------------------------------
  // Signature cache keys

  function SignatureCacheKey(projectId: string, signatureHash: string): string {
    projectId + ":" + signatureHash + ":" + StackingVersion
  }

  function StackSignatureCacheKey(s: Stack): string {
    SignatureCacheKey(s.projectId, s.signatureHash)
  }

  /** For project ids without ':' (store ids are hexadecimal), distinct
      (project, signature) pairs never share a cache key. */
  lemma SignatureCacheKeyInjective(p1: string, h1: string, p2: string, h2: string)
    requires ':' !in p1 && ':' !in p2
    requires SignatureCacheKey(p1, h1) == SignatureCacheKey(p2, h2)
    ensures p1 == p2 && h1 == h2
  {
    var k := SignatureCacheKey(p1, h1);
    assert k == p1 + [':'] + (h1 + ":" + StackingVersion);
    assert k == p2 + [':'] + (h2 + ":" + StackingVersion);
    IndexOfAfterPrefix(p1, h1 + ":" + StackingVersion, ':');
    IndexOfAfterPrefix(p2, h2 + ":" + StackingVersion, ':');
    assert p1 == k[..|p1|] == p2;
    assert h1 == k[|p1| + 1..|k| - 3] == h2;
  }

  /** A signature key always holds ':', so it never coincides with a stack id
      without one: the id entry and the signature entry are separate. */
  lemma SignatureKeyIsNoStackId(projectId: string, signatureHash: string, stackId: string)
    requires ':' !in stackId
    ensures SignatureCacheKey(projectId, signatureHash) != stackId
  {
    assert SignatureCacheKey(projectId, signatureHash)[|projectId|] == ':';
  }

  // ------------------------------------------------------------------
  // The counter merge

  /** The script `IncrementEventCounterAsync` runs on the stored stack. */
  function MergeOccurrences(s: Stack, minOccurrence: int, maxOccurrence: int, count: int): (r: Stack)
    ensures r.firstOccurrence == (if s.totalOccurrences == 0 then minOccurrence else Min(s.firstOccurrence, minOccurrence))
    ensures r.lastOccurrence == Max(s.lastOccurrence, maxOccurrence)
    ensures r.totalOccurrences == s.totalOccurrences + count
    ensures r == s.(firstOccurrence := r.firstOccurrence, lastOccurrence := r.lastOccurrence,
                    totalOccurrences := r.totalOccurrences)
  {
    var first := if s.totalOccurrences == 0 || s.firstOccurrence > minOccurrence then minOccurrence else s.firstOccurrence;
    var last := if s.lastOccurrence < maxOccurrence then maxOccurrence else s.lastOccurrence;
    s.(firstOccurrence := first, lastOccurrence := last, totalOccurrences := s.totalOccurrences + count)
  }

  /** One call's arguments. */
  datatype Increment = Increment(minOccurrence: int, maxOccurrence: int, count: int)

  function MergeAll(s: Stack, incs: seq<Increment>): Stack
    decreases |incs|
  {
    if incs == [] then s
    else MergeAll(MergeOccurrences(s, incs[0].minOccurrence, incs[0].maxOccurrence, incs[0].count), incs[1..])
  }

  function TotalCount(incs: seq<Increment>): int {
    if incs == [] then 0 else incs[0].count + TotalCount(incs[1..])
  }

  /** Over any sequence of merges with non-negative counts the total only grows
      (by the sum of the counts), the last occurrence only moves later and,
      once the stack has occurrences, the first occurrence only moves earlier;
      nothing else about the stack changes. */
  lemma {:induction false} MergesAreMonotonic(s: Stack, incs: seq<Increment>)
    requires forall k :: 0 <= k < |incs| ==> incs[k].count >= 0
    ensures var r := MergeAll(s, incs);
            && r.totalOccurrences == s.totalOccurrences + TotalCount(incs)
            && r.totalOccurrences >= s.totalOccurrences
            && r.lastOccurrence >= s.lastOccurrence
            && (s.totalOccurrences > 0 ==> r.firstOccurrence <= s.firstOccurrence)
            && r.(firstOccurrence := s.firstOccurrence, lastOccurrence := s.lastOccurrence,
                  totalOccurrences := s.totalOccurrences) == s
    decreases |incs|
  {
    if incs != [] {
      var s1 := MergeOccurrences(s, incs[0].minOccurrence, incs[0].maxOccurrence, incs[0].count);
      MergesAreMonotonic(s1, incs[1..]);
      assert forall k :: 0 <= k < |incs[1..]| ==> incs[1..][k] == incs[k + 1];
    }
  }

  // ------------------------------------------------------------------
  // Removal guard

  function EventCount(counts: map<string, nat>, stackId: string): nat {
    if stackId in counts then counts[stackId] else 0
  }

  /** `OnDocumentChangingAsync`: the id of the first stack being removed that
      still has events (the exception it raises), or None. */
  function RemovalBlockedBy(changeType: ChangeType, documents: seq<Stack>, counts: map<string, nat>): (r: Option<string>)
  {
    if changeType != Removed || documents == [] then None
    else if EventCount(counts, documents[0].id) > 0 then Some(documents[0].id)
    else RemovalBlockedBy(changeType, documents[1..], counts)
  }

  /** Only a removal is ever refused, and it is refused exactly when some
      removed stack still has events; the refusal names the first such stack. */
  lemma {:induction false} RemovalRefusedIffEventsRemain(changeType: ChangeType, documents: seq<Stack>,
                                                         counts: map<string, nat>)
    ensures RemovalBlockedBy(changeType, documents, counts).None? <==>
            (changeType != Removed || forall k :: 0 <= k < |documents| ==> EventCount(counts, documents[k].id) == 0)
    ensures RemovalBlockedBy(changeType, documents, counts).Some? ==>
            exists k :: 0 <= k < |documents| && documents[k].id == RemovalBlockedBy(changeType, documents, counts).value
                        && EventCount(counts, documents[k].id) > 0
                        && forall j :: 0 <= j < k ==> EventCount(counts, documents[j].id) == 0
  {
    if changeType == Removed && documents != [] && EventCount(counts, documents[0].id) == 0 {
      RemovalRefusedIffEventsRemain(changeType, documents[1..], counts);
      assert forall k :: 0 <= k < |documents[1..]| ==> documents[1..][k] == documents[k + 1];
      var r := RemovalBlockedBy(changeType, documents[1..], counts);
      if r.Some? {
        var k :| 0 <= k < |documents[1..]| && documents[1..][k].id == r.value
                 && EventCount(counts, documents[1..][k].id) > 0
                 && forall j :: 0 <= j < k ==> EventCount(counts, documents[1..][j].id) == 0;
        assert documents[k + 1].id == r.value;
      }
    } else if changeType == Removed && documents != [] {
      assert documents[0].id == RemovalBlockedBy(changeType, documents, counts).value;
    }
  }

  // ------------------------------------------------------------------
  // Search defaults

  datatype SortOrder = Ascending | Descending
  datatype FieldSort = FieldSort(field: string, order: SortOrder)

  /** The sort a stack search falls back to: latest occurrence first. */
  const DefaultSort: FieldSort := FieldSort(LastOccurrenceField, Descending)

  /** The caller's `SortingOptions`: `GetByFilterAsync` fills its field list in place. */
  class SortingOptions {
    var fields: seq<FieldSort>

    constructor (fields: seq<FieldSort>)
      ensures this.fields == fields
    {
      this.fields := fields;
    }
  }

  /** The caller's sort fields once the default has been filled in. */
  function WithDefaultSort(fields: seq<FieldSort>): (r: seq<FieldSort>)
    ensures r != []
    ensures fields != [] ==> r == fields
    ensures fields == [] ==> r == [DefaultSort]
  {
    if |fields| == 0 then fields + [DefaultSort] else fields
  }

  datatype PagingOptions = PagingOptions(page: Option<nat>, limit: Option<nat>)

  /** The query `GetByFilterAsync` runs: the tenant restriction (the system
      filter query, which `SystemFilter.Build` turns into a filter), the date
      range and its field, the user's filter, paging and sort. */
  datatype StackSearch = StackSearch(systemFilter: SystemFilter.Query, dateField: string, utcStart: int, utcEnd: int,
                                     userFilter: string, paging: PagingOptions, sort: seq<FieldSort>)

  /** `GetByFilterAsync`: the search it hands to `FindAsync`. An empty sort is
      replaced by the default in the caller's own options. */
  method GetByFilter(systemFilter: SystemFilter.Query, userFilter: string, sorting: SortingOptions,
                     field: Option<string>, utcStart: int, utcEnd: int, paging: PagingOptions)
    returns (q: StackSearch)
    modifies sorting
    ensures sorting.fields == WithDefaultSort(old(sorting.fields))
    ensures q.systemFilter == systemFilter
    ensures q.dateField == (if field.Some? then field.value else LastOccurrenceField)
    ensures q.utcStart == utcStart && q.utcEnd == utcEnd && q.userFilter == userFilter && q.paging == paging
    ensures q.sort == sorting.fields
  {
    if |sorting.fields| == 0 {
      sorting.fields := sorting.fields + [DefaultSort];
    }
    q := StackSearch(systemFilter, field.GetOr(LastOccurrenceField), utcStart, utcEnd, userFilter, paging,
                     sorting.fields);
  }

  /** Filling in the default is done once: a caller that reuses its options
      gets the same sort again, and the options stay as the first search left
      them. */
  lemma DefaultSortSettles(fields: seq<FieldSort>)
    ensures WithDefaultSort(WithDefaultSort(fields)) == WithDefaultSort(fields)
    ensures WithDefaultSort(fields)[0] == (if fields == [] then DefaultSort else fields[0])
  {
  }

  /** Two searches with the same options object: the first fills in the
      default, the second finds it there, so both sort alike and the caller is
      left holding a non-empty sort. */
  method RepeatedSearchKeepsSort(systemFilter: SystemFilter.Query, userFilter: string, sorting: SortingOptions, field: Option<string>,
                                 utcStart: int, utcEnd: int, paging: PagingOptions)
    returns (first: StackSearch, second: StackSearch)
    modifies sorting
    ensures first.sort == second.sort == sorting.fields != []
    ensures old(sorting.fields) == [] ==> sorting.fields == [DefaultSort]
    ensures old(sorting.fields) != [] ==> sorting.fields == old(sorting.fields)
  {
    first := GetByFilter(systemFilter, userFilter, sorting, field, utcStart, utcEnd, paging);
    second := GetByFilter(systemFilter, userFilter, sorting, field, utcStart, utcEnd, paging);
    DefaultSortSettles(old(sorting.fields));
  }

  // ------------------------------------------------------------------
  // The repository

  /** A changed document with its stored version before the change, if any. */
  datatype ModifiedStack = ModifiedStack(value: Stack, original: Option<Stack>)

  /** `UnionOriginalAndModified`. */
  function OriginalsAndModified(documents: seq<ModifiedStack>): (r: seq<Stack>)
    ensures forall k :: 0 <= k < |documents| ==> documents[k].value in r
    ensures forall k :: 0 <= k < |documents| && documents[k].original.Some? ==> documents[k].original.value in r
    ensures forall s :: s in r ==>
              exists k :: 0 <= k < |documents| &&
                (s == documents[k].value || (documents[k].original.Some? && s == documents[k].original.value))
  {
    if documents == [] then []
    else
      var d := documents[0];
      var rest := OriginalsAndModified(documents[1..]);
      assert forall k :: 1 <= k < |documents| ==> documents[k] == documents[1..][k - 1];
      [d.value] + (if d.original.Some? then [d.original.value] else []) + rest
  }

  /** The signature keys cached for `docs`, the later of two equal keys winning. */
  function SignatureEntries(docs: seq<Stack>): (m: map<string, Stack>)
    ensures m.Keys == set s | s in docs :: StackSignatureCacheKey(s)
  {
    if docs == [] then map[]
    else
      var last := docs[|docs| - 1];
      var m := SignatureEntries(docs[..|docs| - 1]);
      assert forall s :: s in docs <==> s in docs[..|docs| - 1] || s == last;
      m[StackSignatureCacheKey(last) := last]
  }

  lemma SignatureEntriesStep(base: map<string, Stack>, docs: seq<Stack>, i: nat)
    requires i < |docs|
    ensures base + SignatureEntries(docs[..i + 1])
            == (base + SignatureEntries(docs[..i]))[StackSignatureCacheKey(docs[i]) := docs[i]]
  {
    assert docs[..i + 1][..i] == docs[..i];
  }

  class StackRepository {
    /** The stack index, by id. */
    var stacks: map<string, Stack>
    /** The cache the repository shares: entries by stack id and by signature key. */
    var cache: map<string, Stack>
    /** Change messages handed to the message bus. */
    var published: seq<EntityChanged>
    const isCacheEnabled: bool

    constructor (stacks: map<string, Stack>, isCacheEnabled: bool)
      ensures this.stacks == stacks && this.isCacheEnabled == isCacheEnabled
      ensures cache == map[] && published == []
    {
      this.stacks := stacks;
      this.isCacheEnabled := isCacheEnabled;
      cache := map[];
      published := [];
    }

    /** `IncrementEventCounterAsync`. The update is invalid when the stack is
        not stored or the conflict retries ran out (`writeConflict`). */
    method IncrementEventCounter(organizationId: string, projectId: string, stackId: string,
                                 minOccurrence: int, maxOccurrence: int, count: int,
                                 sendNotifications: bool, writeConflict: bool)
      modifies this
      ensures stackId !in old(stacks) || writeConflict ==>
                stacks == old(stacks) && cache == old(cache) && published == old(published)
      ensures stackId in old(stacks) && !writeConflict ==>
                && stacks == old(stacks)[stackId := MergeOccurrences(old(stacks)[stackId], minOccurrence, maxOccurrence, count)]
                && cache == (if isCacheEnabled then old(cache) - {stackId} else old(cache))
                && published == old(published) +
                     (if sendNotifications
                      then [EntityChanged(Saved, stackId, organizationId, projectId, EntityTypeName, ChangeDelayMilliseconds)]
                      else [])
    {
      if stackId !in stacks || writeConflict {
        return;
      }
      stacks := stacks[stackId := MergeOccurrences(stacks[stackId], minOccurrence, maxOccurrence, count)];
      if isCacheEnabled {
        cache := cache - {stackId};
      }
      if sendNotifications {
        published := published + [EntityChanged(Saved, stackId, organizationId, projectId, EntityTypeName,
                                                 ChangeDelayMilliseconds)];
      }
    }

    /** `GetStackBySignatureHashAsync`: cache, then store, then fill the cache. */
    method GetStackBySignatureHash(projectId: string, signatureHash: string) returns (r: Option<Stack>)
      modifies this`cache
      ensures var key := SignatureCacheKey(projectId, signatureHash);
              isCacheEnabled && key in old(cache) ==> r == Some(old(cache)[key]) && cache == old(cache)
      ensures var key := SignatureCacheKey(projectId, signatureHash);
              !(isCacheEnabled && key in old(cache)) ==>
                && (r.Some? ==> r.value in stacks.Values
                                && r.value.projectId == projectId && r.value.signatureHash == signatureHash)
                && (r.None? ==> forall id :: id in stacks ==>
                                  !(stacks[id].projectId == projectId && stacks[id].signatureHash == signatureHash))
                && cache == (if isCacheEnabled && r.Some? then old(cache)[key := r.value] else old(cache))
    {
      var key := SignatureCacheKey(projectId, signatureHash);
      if isCacheEnabled && key in cache {
        return Some(cache[key]);
      }
      if id :| id in stacks && stacks[id].projectId == projectId && stacks[id].signatureHash == signatureHash {
        r := Some(stacks[id]);
      } else {
        r := None;
      }
      if isCacheEnabled && r.Some? {
        cache := cache[key := r.value];
      }
    }

    /** `InvalidateCacheAsync`: drop the signature entries of every original and
        modified document. */
    method InvalidateCache(documents: seq<ModifiedStack>)
      modifies this`cache
      ensures !isCacheEnabled ==> cache == old(cache)
      ensures isCacheEnabled ==>
                cache == old(cache) - set s | s in OriginalsAndModified(documents) :: StackSignatureCacheKey(s)
    {
      if !isCacheEnabled {
        return;
      }
      var keys := set s | s in OriginalsAndModified(documents) :: StackSignatureCacheKey(s);
      cache := cache - keys;
    }

    /** `AddToCacheAsync`: cache each stack under its signature key too. */
    method AddToCache(documents: seq<Stack>)
      modifies this`cache
      ensures !isCacheEnabled ==> cache == old(cache)
      ensures isCacheEnabled ==> cache == old(cache) + SignatureEntries(documents)
    {
      if !isCacheEnabled {
        return;
      }
      for i := 0 to |documents|
        invariant cache == old(cache) + SignatureEntries(documents[..i])
      {
        SignatureEntriesStep(old(cache), documents, i);
        cache := cache[StackSignatureCacheKey(documents[i]) := documents[i]];
      }
      assert documents[..|documents|] == documents;
    }

    /** `MarkAsRegressedAsync`: load, set the flag, `SaveAsync(stack, true)`.
        The save invalidates the stack's signature entry, caches the saved
        stack again through `AddToCache` and announces the change. A missing
        stack fails the call (the source dereferences null) and changes
        nothing. */
    method MarkAsRegressed(stackId: string) returns (ok: bool)
      modifies this
      ensures ok == (stackId in old(stacks))
      ensures !ok ==> stacks == old(stacks) && cache == old(cache) && published == old(published)
      ensures ok ==> var regressed := old(stacks)[stackId].(isRegressed := true);
                     && stacks == old(stacks)[stackId := regressed]
                     && cache == (if isCacheEnabled then old(cache)[StackSignatureCacheKey(regressed) := regressed]
                                  else old(cache))
                     && published == old(published) +
                          [EntityChanged(Saved, stackId, regressed.organizationId, regressed.projectId, EntityTypeName, 0)]
    {
      if stackId !in stacks {
        return false;
      }
      var stack := stacks[stackId];
      var regressed := stack.(isRegressed := true);
      stacks := stacks[stackId := regressed];
      InvalidateCache([ModifiedStack(regressed, Some(stack))]);
      assert OriginalsAndModified([ModifiedStack(regressed, Some(stack))]) == [regressed, stack];
      assert StackSignatureCacheKey(regressed) == StackSignatureCacheKey(stack);
      AddToCache([regressed]);
      assert SignatureEntries([regressed]) == map[StackSignatureCacheKey(regressed) := regressed];
      published := published + [EntityChanged(Saved, stackId, regressed.organizationId, regressed.projectId,
                                               EntityTypeName, 0)];
      return true;
    }
  }

  /** A regressed stack is what the next signature lookup serves: the save
      re-caches it, so the lookup does not even reach the store. */
  method RegressedStackIsServed(repo: StackRepository, stackId: string) returns (found: Option<Stack>)
    requires repo.isCacheEnabled && stackId in repo.stacks
    modifies repo
    ensures found == Some(old(repo.stacks[stackId]).(isRegressed := true))
  {
    var s := repo.stacks[stackId];
    var ok := repo.MarkAsRegressed(stackId);
    found := repo.GetStackBySignatureHash(s.projectId, s.signatureHash);
  }

  /** Once a lookup has found a stack and cached it, the next lookup of the same
      signature is served from the cache and returns the same stack. */
  method RepeatedLookupHitsCache(repo: StackRepository, projectId: string, signatureHash: string)
    returns (first: Option<Stack>, second: Option<Stack>)
    requires repo.isCacheEnabled
    modifies repo
    ensures first.Some? ==> second == first
    ensures first.None? ==> second.None?
  {
    first := repo.GetStackBySignatureHash(projectId, signatureHash);
    second := repo.GetStackBySignatureHash(projectId, signatureHash);
  }

  /** A merge drops the by-id cache entry only: a cached signature entry for the
      same stack survives it and keeps serving the counters from before. */
  method MergeLeavesSignatureEntry(repo: StackRepository, stackId: string, minOccurrence: int,
                                   maxOccurrence: int, count: int)
    requires repo.isCacheEnabled && stackId in repo.stacks && ':' !in stackId
    requires StackSignatureCacheKey(repo.stacks[stackId]) in repo.cache
    modifies repo
    ensures var key := StackSignatureCacheKey(old(repo.stacks[stackId]));
            key in repo.cache && repo.cache[key] == old(repo.cache[key])
  {
    var s := repo.stacks[stackId];
    SignatureKeyIsNoStackId(s.projectId, s.signatureHash, stackId);
    repo.IncrementEventCounter(s.organizationId, s.projectId, stackId, minOccurrence, maxOccurrence, count, true, false);
  }
}
