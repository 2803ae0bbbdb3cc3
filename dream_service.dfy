/**
 * The client's `DreamService`: a guest (a user id starting with `guest-`)
 * keeps its dreams on the device under `@dreams_storage`; a registered user
 * goes to the backend, and the last list fetched for them is cached under
 * `@dreams_storage_<userId>`. Each network exchange is a parameter.
 */
module DreamService {
  import opened Wrappers
  import opened Text
  import opened JsValue
  import opened Sequences
  import opened DeviceStorage

  const DreamsStorageKey := "@dreams_storage"
  const GuestPrefix := "guest-"

  /** A dream as the client stores it; the optional fields may be absent. The history screen adds `isFavorite`. */
  datatype ClientDream = ClientDream(
    id: string, userId: string, content: string, interpretation: Option<string>,
    symbols: Option<Value>, sentiment: Option<Value>, createdAt: string, isLocal: Option<bool>,
    isFavorite: Option<bool>)

  /** What the caller of `saveDream` passes: a dream without `id` and `createdAt`. */
  datatype DreamDraft = DreamDraft(
    userId: string, content: string, interpretation: Option<string>,
    symbols: Option<Value>, sentiment: Option<Value>, isLocal: Option<bool>)

  /** How one `fetch` ended: it threw, or the server answered (`json` is `None` when the body is not JSON). */
  datatype Exchange = Unreachable(error: string) | Answered(ok: bool, status: int, json: Option<Value>)

  /** What `saveDream` returns: the local record, or the backend's answer. */
  datatype Saved = SavedLocally(dream: ClientDream) | SavedRemotely(data: Value)

  /** What `getDreams` returns: the local list, or the backend's (or the cached) answer. */
  datatype Listing = LocalList(dreams: seq<ClientDream>) | RemoteList(data: Value)

  predicate IsGuest(userId: string) {
    StartsWith(userId, GuestPrefix)
  }

  /** The per-user cache key of `getDreams`. */
  function CacheKey(userId: string): (k: string)
    ensures k != DreamsStorageKey
  {
    DreamsStorageKey + "_" + userId
  }

  /** Different users never share a cache key, and no cache key is the guest list's key. */
  lemma CacheKeyInjective(a: string, b: string)
    ensures CacheKey(a) == CacheKey(b) <==> a == b
  {
    if CacheKey(a) == CacheKey(b) {
      assert a == CacheKey(a)[|DreamsStorageKey| + 1..];
      assert b == CacheKey(b)[|DreamsStorageKey| + 1..];
    }
  }

  /** `{ ...dream, id, createdAt, isLocal: true }`. */
  function LocalDream(draft: DreamDraft, id: string, createdAt: string): (d: ClientDream)
    ensures d.id == id && d.createdAt == createdAt && d.isLocal == Some(true)
    ensures d.userId == draft.userId && d.content == draft.content && d.interpretation == draft.interpretation
    ensures d.symbols == draft.symbols && d.sentiment == draft.sentiment
  {
    ClientDream(id, draft.userId, draft.content, draft.interpretation, draft.symbols, draft.sentiment, createdAt, Some(true), None)
  }

  /** `if (!response.ok) throw …; return await response.json()`. */
  function Body(x: Exchange): (r: Result<Value>)
    ensures r.Success? <==> x.Answered? && x.ok && x.json.Some?
    ensures r.Success? ==> r.value == x.json.value
    ensures x.Answered? && !x.ok ==> r == Failure("HTTP error! status: " + IntToText(x.status))
    ensures x.Unreachable? ==> r == Failure(x.error)
  {
    match x
    case Unreachable(e) => Failure(e)
    case Answered(ok, status, json) =>
      if !ok then Failure("HTTP error! status: " + IntToText(status))
      else if json.None? then Failure("SyntaxError: invalid JSON")
      else Success(json.value)
  }

  /** The error a cached entry that cannot be read back raises. */
  const CacheUnreadable := "SyntaxError: cached dreams are not readable"

  class DreamStore {
    /** The key `@dreams_storage`. */
    var local: Slot<seq<ClientDream>>
    /** The keys `@dreams_storage_<userId>`, by key. */
    var userCaches: map<string, Slot<Value>>

    constructor()
      ensures local == Absent && userCaches == map[]
    {
      local := Absent;
      userCaches := map[];
    }

    /** `getLocalDreams`: the stored list, or `[]` when nothing is stored or it cannot be read. */
    function GetLocalDreams(): (r: seq<ClientDream>)
      reads this
      ensures local.Stored? ==> r == local.doc
      ensures !local.Stored? ==> r == []
    {
      ListOr(local)
    }

    /** What the cache key of `userId` holds. */
    function CachedFor(userId: string): Slot<Value>
      reads this
    {
      if CacheKey(userId) in userCaches then userCaches[CacheKey(userId)] else Absent
    }

    /** `saveLocalDreams`: store the list; reading it back gives it. */
    method SaveLocalDreams(dreams: seq<ClientDream>)
      modifies this
      ensures local == Stored(dreams) && userCaches == old(userCaches)
      ensures GetLocalDreams() == dreams
    {
      local := Stored(dreams);
    }

    /**
     * `saveDream`: a guest's dream gets the clock as id, `isLocal` true, and
     * goes in front of the stored list; a registered user's dream is posted.
     */
    method SaveDream(draft: DreamDraft, nowMs: int, nowIso: string, post: Exchange) returns (r: Result<Saved>)
      modifies this
      ensures userCaches == old(userCaches)
      ensures IsGuest(draft.userId) ==>
        var d := LocalDream(draft, IntToText(nowMs), nowIso);
        r == Success(SavedLocally(d)) && local == Stored([d] + old(GetLocalDreams()))
      ensures !IsGuest(draft.userId) ==> local == old(local)
      ensures !IsGuest(draft.userId) && Body(post).Success? ==> r == Success(SavedRemotely(Body(post).value))
      ensures !IsGuest(draft.userId) && Body(post).Failure? ==> r == Failure(Body(post).error)
    {
      if IsGuest(draft.userId) {
        var newDream := LocalDream(draft, IntToText(nowMs), nowIso);
        var existingDreams := GetLocalDreams();
        var updatedDreams := [newDream] + existingDreams;
        local := Stored(updatedDreams);
        return Success(SavedLocally(newDream));
      }
      var data :- Body(post);
      r := Success(SavedRemotely(data));
    }

    /**
     * `getDreams`: a guest reads the local list. For a registered user a
     * fetched list is cached and returned; when the fetch fails (or its
     * answer is `null`, whose `length` throws) the cached list is returned,
     * and without one the error propagates.
     */
    method GetDreams(userId: string, fetched: Exchange) returns (r: Result<Listing>)
      modifies this
      ensures local == old(local)
      ensures IsGuest(userId) ==> r == Success(LocalList(old(GetLocalDreams()))) && userCaches == old(userCaches)
      ensures !IsGuest(userId) && Body(fetched).Success? && !Body(fetched).value.Null? ==>
        r == Success(RemoteList(Body(fetched).value)) &&
        userCaches == old(userCaches)[CacheKey(userId) := Stored(Body(fetched).value)] &&
        CachedFor(userId) == Stored(Body(fetched).value)
      ensures !IsGuest(userId) && !(Body(fetched).Success? && !Body(fetched).value.Null?) ==>
        userCaches == old(userCaches) &&
        (old(CachedFor(userId)).Stored? ==> r == Success(RemoteList(old(CachedFor(userId)).doc))) &&
        (old(CachedFor(userId)).Unreadable? ==> r == Failure(CacheUnreadable)) &&
        (old(CachedFor(userId)).Absent? ==> r.Failure?)
    {
      if IsGuest(userId) {
        var dreams := GetLocalDreams();
        return Success(LocalList(dreams));
      }
      var cacheKey := CacheKey(userId);
      var body := Body(fetched);
      var error: string;
      if body.Success? {
        var length := Get(body.value, "length");
        if length.Success? {
          userCaches := userCaches[cacheKey := Stored(body.value)];
          return Success(RemoteList(body.value));
        }
        error := length.error;
      } else {
        error := body.error;
      }
      var cached := CachedFor(userId);
      match cached
      case Stored(data) => r := Success(RemoteList(data));
      case Unreadable => r := Failure(CacheUnreadable);
      case Absent => r := Failure(error);
    }

    /** `deleteDream`: a guest's list loses every dream with that id; a registered user's delete is sent. */
    method DeleteDream(dreamId: string, userId: string, sent: Exchange) returns (r: Result<()>)
      modifies this
      ensures userCaches == old(userCaches)
      ensures IsGuest(userId) ==>
        r == Success(()) && local == Stored(Filter(old(GetLocalDreams()), (d: ClientDream) => d.id != dreamId))
      ensures !IsGuest(userId) ==> local == old(local)
      ensures !IsGuest(userId) ==> (r.Success? <==> sent.Answered? && sent.ok)
    {
      if IsGuest(userId) {
        var dreams := GetLocalDreams();
        var updatedDreams := Filter(dreams, (d: ClientDream) => d.id != dreamId);
        local := Stored(updatedDreams);
        return Success(());
      }
      match sent
      case Unreachable(e) => r := Failure(e);
      case Answered(ok, status, _) =>
        if !ok {
          return Failure("HTTP error! status: " + IntToText(status));
        }
        r := Success(());
    }
  }

  /** A guest's delete keeps the other dreams in their order and drops every dream with that id. */
  lemma GuestDeleteKeepsOthers(dreams: seq<ClientDream>, dreamId: string)
    ensures Subsequence(Filter(dreams, (d: ClientDream) => d.id != dreamId), dreams)
    ensures forall d :: d in Filter(dreams, (d: ClientDream) => d.id != dreamId) <==> d in dreams && d.id != dreamId
  {
    FilterSubsequence(dreams, (d: ClientDream) => d.id != dreamId);
  }
}
