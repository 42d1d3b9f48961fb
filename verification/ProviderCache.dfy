/** The provider cache (pkg/core/cache.go) and the body wrapper of pkg/utils/reader.go. */
module ProviderCache {
  import opened Wrappers

  datatype Path = Path(owner: string, repo: string, id: string, path: string)

  // ---------------------------------------------------------------- keys

  function Joined(a: string, b: string): string {
    a + "/" + b
  }

  function BlobKey(p: Path): string {
    Joined(p.owner, Joined(p.repo, Joined(p.id, p.path)))
  }

  function DirKey(p: Path): string {
    "dir:" + BlobKey(p)
  }

  predicate NoSlash(s: string) {
    forall i :: 0 <= i < |s| ==> s[i] != '/'
  }

  /** Owner, repository and commit are names without a slash; the path may have any. */
  predicate Named(p: Path) {
    NoSlash(p.owner) && NoSlash(p.repo) && NoSlash(p.id)
  }

  lemma JoinedInjective(a: string, x: string, b: string, y: string)
    requires NoSlash(a) && NoSlash(b)
    ensures Joined(a, x) == Joined(b, y) <==> a == b && x == y
  {
    var s, t := Joined(a, x), Joined(b, y);
    if s == t {
      assert s[|a|] == '/' && t[|b|] == '/';
      assert forall i :: 0 <= i < |a| ==> s[i] == a[i];
      assert forall i :: 0 <= i < |b| ==> t[i] == b[i];
      assert |a| == |b|;
      assert a == s[..|a|] && b == t[..|b|] && x == s[|a| + 1..] && y == t[|b| + 1..];
    }
  }

  lemma BlobKeyInjective(p: Path, q: Path)
    requires Named(p) && Named(q)
    ensures BlobKey(p) == BlobKey(q) <==> p == q
  {
    JoinedInjective(p.owner, Joined(p.repo, Joined(p.id, p.path)), q.owner, Joined(q.repo, Joined(q.id, q.path)));
    JoinedInjective(p.repo, Joined(p.id, p.path), q.repo, Joined(q.id, q.path));
    JoinedInjective(p.id, p.path, q.id, q.path);
  }

  lemma DirKeyIsBlobKey(q: Path)
    ensures DirKey(q) == BlobKey(q.(owner := "dir:" + q.owner))
  {
    var rest := Joined(q.repo, Joined(q.id, q.path));
    assert "dir:" + (q.owner + "/" + rest) == ("dir:" + q.owner) + "/" + rest;
  }

  lemma DirKeyInjective(p: Path, q: Path)
    requires Named(p) && Named(q)
    ensures DirKey(p) == DirKey(q) <==> p == q
  {
    if DirKey(p) == DirKey(q) {
      assert DirKey(p)[4..] == BlobKey(p) && DirKey(q)[4..] == BlobKey(q);
      BlobKeyInjective(p, q);
    }
  }

  /** A blob and a directory share a key exactly when the blob's owner is the directory's
      owner with "dir:" in front. */
  lemma KeysCollideIff(p: Path, q: Path)
    requires Named(p) && Named(q)
    ensures BlobKey(p) == DirKey(q) <==> p == q.(owner := "dir:" + q.owner)
  {
    DirKeyIsBlobKey(q);
    BlobKeyInjective(p, q.(owner := "dir:" + q.owner));
  }

  /** With a slash in a name, different paths do share a key. */
  lemma SlashesCollide()
    ensures BlobKey(Path("a/b", "c", "d", "e")) == BlobKey(Path("a", "b", "c", "d/e"))
  {}

  /** The names for which no blob and directory keys collide. */
  predicate WellNamed(p: Path) {
    Named(p) && !("dir:" <= p.owner)
  }

  lemma KeysDisjoint(p: Path, q: Path)
    requires WellNamed(p) && Named(q)
    ensures BlobKey(p) != DirKey(q)
  {
    KeysCollideIff(p, q);
  }

  // ---------------------------------------------------------------- the backend

  /** The parts of a response the cache keeps; `length` is the parsed Content-Length. */
  datatype Response = Response(
    status: nat, length: Option<nat>, lastModified: string, contentType: string, body: string)

  datatype OpenAnswer = Opened(response: Response) | NotExist | Failed | Nothing

  datatype DirEntry = DirEntry(name: string, path: string, kind: string, size: int)

  /** A Go slice, which may be nil. */
  datatype Entries = NilSlice | Slice(entries: seq<DirEntry>)

  datatype ListAnswer = Listed(entries: Entries) | ListNotExist | ListFailed

  /** A backend is a function of owner, repository, commit and path. */
  datatype Backend = Backend(open: Path -> OpenAnswer, ranged: Path -> OpenAnswer, list: Path -> ListAnswer)

  /** The JSON form of directory entries; a nil slice is null, which reads back as nil. */
  datatype Json = Json(encode: Entries -> string, decode: string -> Option<Entries>)

  ghost predicate Faithful(json: Json) {
    forall e :: json.decode(json.encode(e)) == Some(e)
  }

  /** A 404 response means that there is no such file. */
  function Meant(a: OpenAnswer): OpenAnswer {
    if a.Opened? && a.response.status == 404 then NotExist else a
  }

  // ---------------------------------------------------------------- what is stored

  /** A cache entry: the "404" mark, the kept headers and the stored bytes. */
  datatype Content =
    Content(missing: bool, length: Option<nat>, lastModified: string, contentType: string, payload: string)

  type Store = map<string, Content>

  const NOT_FOUND := Content(true, None, "", "", "")
  const MAX_INT: nat := 0x8000_0000_0000_0000

  function Lookup(store: Store, key: string): Option<Content> {
    if key in store then Some(store[key]) else None
  }

  function KeptResponse(r: Response): Content {
    Content(false, r.length, r.lastModified, r.contentType, r.body)
  }

  function KeptEntries(json: Json, e: Entries): Content {
    Content(false, None, "", "", json.encode(e))
  }

  /** loadCachedResponse; None is a miss. */
  function LoadResponse(c: Option<Content>): Option<OpenAnswer> {
    match c
    case None => None
    case Some(content) =>
      if content.missing then Some(NotExist)
      else if content.length.None? || content.length.value >= MAX_INT then Some(Failed)
      else Some(Opened(Response(200, content.length, content.lastModified, content.contentType, content.payload)))
  }

  /** loadCachedDirEntries; a nil slice counts as a miss. */
  function LoadEntries(json: Json, c: Option<Content>): Option<ListAnswer> {
    match c
    case None => None
    case Some(content) =>
      if content.missing then Some(ListNotExist)
      else match json.decode(content.payload)
        case None => Some(ListFailed)
        case Some(NilSlice) => None
        case Some(entries) => Some(Listed(entries))
  }

  /** The responses that are read into the cache. */
  predicate Cacheable(limit: nat, r: Response) {
    r.status != 404 && r.length.Some? && r.length.value <= limit
  }

  /** A kept response is replayed as it was exactly when its status was 200 (and its length an int). */
  lemma ReplayIsFaithfulIff(limit: nat, r: Response)
    requires Cacheable(limit, r)
    ensures LoadResponse(Some(KeptResponse(r))) == Some(Meant(Opened(r)))
       <==> r.status == 200 && r.length.value < MAX_INT
  {}

  /** A response that is kept with a length that does not read back as an int. */
  predicate TooLong(limit: nat, a: OpenAnswer) {
    a.Opened? && Cacheable(limit, a.response) && a.response.length.value >= MAX_INT
  }

  /** Every response that can be cached and loaded again has status 200. */
  ghost predicate Replayable(b: Backend, limit: nat) {
    forall p :: WellNamed(p) && b.open(p).Opened?
                && Cacheable(limit, b.open(p).response) && !TooLong(limit, b.open(p)) ==>
      b.open(p).response.status == 200
  }

  /** A hit is what the backend would answer, or fails because of its length. */
  ghost predicate SoundBlob(b: Backend, limit: nat, store: Store, p: Path) {
    BlobKey(p) in store ==>
      LoadResponse(Some(store[BlobKey(p)])) == Some(if TooLong(limit, b.open(p)) then Failed else Meant(b.open(p)))
  }

  ghost predicate SoundDir(b: Backend, json: Json, store: Store, p: Path) {
    DirKey(p) in store ==>
      var l := LoadEntries(json, Some(store[DirKey(p)])); l == None || l == Some(b.list(p))
  }

  /** Every hit on a well-named path is what the backend would answer. */
  ghost predicate Sound(b: Backend, json: Json, limit: nat, store: Store) {
    forall p :: WellNamed(p) ==> SoundBlob(b, limit, store, p) && SoundDir(b, json, store, p)
  }

  lemma PutBlobSound(b: Backend, json: Json, limit: nat, store: Store, q: Path, c: Content)
    requires Sound(b, json, limit, store) && WellNamed(q)
    requires LoadResponse(Some(c)) == Some(if TooLong(limit, b.open(q)) then Failed else Meant(b.open(q)))
    ensures Sound(b, json, limit, store[BlobKey(q) := c])
  {
    forall p | WellNamed(p)
      ensures SoundBlob(b, limit, store[BlobKey(q) := c], p) && SoundDir(b, json, store[BlobKey(q) := c], p) {
      BlobKeyInjective(p, q);
      KeysDisjoint(q, p);
      assert SoundBlob(b, limit, store, p) && SoundDir(b, json, store, p);
    }
  }

  lemma PutDirSound(b: Backend, json: Json, limit: nat, store: Store, q: Path, c: Content)
    requires Sound(b, json, limit, store) && WellNamed(q)
    requires var l := LoadEntries(json, Some(c)); l == None || l == Some(b.list(q))
    ensures Sound(b, json, limit, store[DirKey(q) := c])
  {
    forall p | WellNamed(p)
      ensures SoundBlob(b, limit, store[DirKey(q) := c], p) && SoundDir(b, json, store[DirKey(q) := c], p) {
      DirKeyInjective(p, q);
      KeysDisjoint(p, q);
      assert SoundBlob(b, limit, store, p) && SoundDir(b, json, store, p);
    }
  }

  lemma EvictSound(b: Backend, json: Json, limit: nat, store: Store, key: string)
    requires Sound(b, json, limit, store)
    ensures Sound(b, json, limit, store - {key})
  {
    forall p | WellNamed(p) ensures SoundBlob(b, limit, store - {key}, p) && SoundDir(b, json, store - {key}, p) {
      assert SoundBlob(b, limit, store, p) && SoundDir(b, json, store, p);
    }
  }

  ghost predicate SameBut(s: Store, t: Store, key: string) {
    s - {key} == t - {key}
  }

  /** Entries written and read back are the entries, or a miss. */
  lemma EntriesSound(json: Json, e: Entries)
    requires Faithful(json)
    ensures LoadEntries(json, Some(KeptEntries(json, e))) == if e == NilSlice then None else Some(Listed(e))
  {
    assert json.decode(json.encode(e)) == Some(e);
  }

  // ---------------------------------------------------------------- the object

  /** What the environment does to one call. */
  datatype Luck = Luck(lookupFails: bool, cancelled: bool, backendFails: bool, readFails: bool, putFails: bool)

  const SMOOTH := Luck(false, false, false, false, false)

  class ProviderCache {
    const backend: Backend
    const json: Json
    const limit: nat
    const backendCapacity: nat
    const cacheCapacity: nat
    var store: Store
    var backendSlots: nat
    var cacheSlots: nat

    predicate Valid()
      reads this
    {
      backendSlots <= backendCapacity && cacheSlots <= cacheCapacity
    }

    ghost predicate Trusted() {
      Replayable(backend, limit) && Faithful(json)
    }

    constructor (backend: Backend, json: Json, limit: nat, cacheConcurrent: nat, backendConcurrent: nat)
      ensures Valid() && store == map[] && backendSlots == 0 && cacheSlots == 0
      ensures this.backend == backend && this.json == json && this.limit == limit
      ensures cacheCapacity == (if cacheConcurrent == 0 then 16 else cacheConcurrent)
      ensures backendCapacity == (if backendConcurrent == 0 then 64 else backendConcurrent)
      ensures Sound(backend, json, limit, store)
    {
      this.backend, this.json, this.limit := backend, json, limit;
      this.cacheCapacity := if cacheConcurrent == 0 then 16 else cacheConcurrent;
      this.backendCapacity := if backendConcurrent == 0 then 64 else backendConcurrent;
      store, backendSlots, cacheSlots := map[], 0, 0;
    }

    /** A call that finds no free slot waits until its context is cancelled. */
    method AcquireBackend(cancelled: bool) returns (ok: bool)
      requires Valid()
      modifies this`backendSlots
      ensures Valid() && ok == (!cancelled && old(backendSlots) < backendCapacity)
      ensures backendSlots == old(backendSlots) + if ok then 1 else 0
    {
      ok := !cancelled && backendSlots < backendCapacity;
      if ok {
        backendSlots := backendSlots + 1;
      }
    }

    method TryAcquireCacheSlot() returns (ok: bool)
      requires Valid()
      modifies this`cacheSlots
      ensures Valid() && ok == (old(cacheSlots) < cacheCapacity)
      ensures cacheSlots == old(cacheSlots) + if ok then 1 else 0
    {
      ok := cacheSlots < cacheCapacity;
      if ok {
        cacheSlots := cacheSlots + 1;
      }
    }

    method Put(key: string, content: Content, fails: bool)
      modifies this`store
      ensures store == if fails then old(store) else old(store)[key := content]
    {
      if !fails {
        store := store[key := content];
      }
    }

    /** cacheResponse: the body is read, put and closed, which gives the backend slot back. */
    method CacheResponse(key: string, r: Response, luck: Luck) returns (answer: OpenAnswer)
      requires Valid() && backendSlots > 0
      modifies this`store, this`backendSlots
      ensures Valid() && backendSlots == old(backendSlots) - 1
      ensures answer == if luck.readFails then Failed else Opened(r)
      ensures store == if luck.readFails || luck.putFails then old(store) else old(store)[key := KeptResponse(r)]
    {
      if luck.readFails {
        backendSlots := backendSlots - 1;
        return Failed;
      }
      Put(key, KeptResponse(r), luck.putFails);
      backendSlots := backendSlots - 1;
      answer := Opened(r);
    }

    /** handleBackendResponse: `holds` tells whether the returned body gives the slot back when closed. */
    method HandleBackendResponse(key: string, r: Response, luck: Luck) returns (answer: OpenAnswer, holds: bool)
      requires Valid() && backendSlots > 0
      modifies this
      ensures Valid() && cacheSlots == old(cacheSlots) && (holds ==> answer == Opened(r))
      ensures backendSlots == old(backendSlots) - if holds then 0 else 1
      ensures answer == if r.status == 404 then NotExist else if !holds && luck.readFails then Failed else Opened(r)
      ensures holds <==>
                r.status != 404 && !(r.length.Some? && r.length.value <= limit && old(cacheSlots) < cacheCapacity)
      ensures store == if holds || luck.putFails || (r.status != 404 && luck.readFails) then old(store)
                       else old(store)[key := if r.status == 404 then NOT_FOUND else KeptResponse(r)]
    {
      if r.status == 404 {
        Put(key, NOT_FOUND, luck.putFails);
        backendSlots := backendSlots - 1;
        return NotExist, false;
      }
      if r.length.None? {
        return Opened(r), true;
      }
      if r.length.value > limit {
        return Opened(r), true;
      }
      var slot := TryAcquireCacheSlot();
      if !slot {
        return Opened(r), true;
      }
      answer := CacheResponse(key, r, luck);
      cacheSlots := cacheSlots - 1;
      holds := false;
    }

    /** What an undisturbed miss leaves under its key: the mark of a missing file, or a response that
        has a length within the limit while a cache slot is free. */
    predicate Filled(free: bool, answer: OpenAnswer, kept: Option<Content>) {
      match answer
      case NotExist => kept.Some? && kept.value.missing
      case Opened(r) =>
        if r.status == 404 then kept.Some? && kept.value.missing
        else if r.length.Some? && r.length.value <= limit && free
        then kept.Some? && !kept.value.missing && kept.value.payload == r.body && kept.value.length == r.length
        else kept.None?
      case _ => kept.None?
    }

    /** Open.  A hit or a cached read costs no slot; a streamed body keeps its backend slot.
        The answer is the backend's, or a failure the environment caused; a sound store stays sound. */
    method Open(p: Path, ranged: bool, luck: Luck) returns (answer: OpenAnswer, holds: bool)
      requires Valid()
      modifies this
      ensures Valid() && cacheSlots == old(cacheSlots)
      ensures backendSlots == old(backendSlots) + if holds then 1 else 0
      ensures holds ==> answer.Opened?
      ensures SameBut(old(store), store, BlobKey(p))
      ensures ranged ==> store == old(store) && answer == if luck.backendFails then Failed else backend.ranged(p)
      ensures !ranged && !luck.lookupFails && BlobKey(p) in old(store) ==>
                !holds && store == old(store) && Some(answer) == LoadResponse(Some(store[BlobKey(p)]))
      ensures !ranged && luck == SMOOTH && old(backendSlots) < backendCapacity && BlobKey(p) !in old(store) ==>
                Filled(old(cacheSlots) < cacheCapacity, backend.open(p), Lookup(store, BlobKey(p)))
      ensures !ranged && WellNamed(p) && Trusted() && Sound(backend, json, limit, old(store)) ==>
                && Sound(backend, json, limit, store)
                && (answer == Failed || answer == Meant(backend.open(p)))
                && (luck == SMOOTH && old(backendSlots) < backendCapacity && !TooLong(limit, backend.open(p)) ==>
                      answer == Meant(backend.open(p)))
    {
      holds := false;
      if ranged {
        answer := if luck.backendFails then Failed else backend.ranged(p);
        return;
      }
      var key := BlobKey(p);
      if luck.lookupFails {
        return Failed, false;
      }
      var hit := LoadResponse(Lookup(store, key));
      if hit.Some? {
        assert WellNamed(p) && Sound(backend, json, limit, store) ==> SoundBlob(backend, limit, store, p);
        return hit.value, false;
      }
      var acquired := AcquireBackend(luck.cancelled);
      if !acquired {
        return Failed, false;
      }
      var open := if luck.backendFails then Failed else backend.open(p);
      if !open.Opened? {
        backendSlots := backendSlots - 1;
        if open == NotExist {
          Put(key, NOT_FOUND, luck.putFails);
          if WellNamed(p) && Sound(backend, json, limit, old(store)) {
            PutBlobSound(backend, json, limit, old(store), p, NOT_FOUND);
          }
        }
        return open, false;
      }
      answer, holds := HandleBackendResponse(key, open.response, luck);
      if WellNamed(p) && Trusted() && Sound(backend, json, limit, old(store)) && store != old(store) {
        PutBlobSound(backend, json, limit, old(store), p, store[key]);
      }
    }

    /** List keeps its backend slot until it returns and always gives it back. */
    method List(p: Path, luck: Luck) returns (answer: ListAnswer)
      requires Valid()
      modifies this
      ensures Valid() && backendSlots == old(backendSlots) && cacheSlots == old(cacheSlots)
      ensures SameBut(old(store), store, DirKey(p))
      ensures !luck.lookupFails && LoadEntries(json, Lookup(old(store), DirKey(p))).Some? ==>
                store == old(store) && Some(answer) == LoadEntries(json, Lookup(store, DirKey(p)))
      ensures luck == SMOOTH && old(backendSlots) < backendCapacity && DirKey(p) !in old(store) ==>
                match backend.list(p)
                case ListNotExist => DirKey(p) in store && store[DirKey(p)].missing
                case Listed(e) =>
                  if old(cacheSlots) < cacheCapacity
                  then DirKey(p) in store && !store[DirKey(p)].missing && store[DirKey(p)].payload == json.encode(e)
                  else store == old(store)
                case ListFailed => store == old(store)
      ensures WellNamed(p) && Trusted() && Sound(backend, json, limit, old(store)) ==>
                && Sound(backend, json, limit, store)
                && (answer == ListFailed || answer == backend.list(p))
                && (luck == SMOOTH && old(backendSlots) < backendCapacity ==> answer == backend.list(p))
    {
      var key := DirKey(p);
      if luck.lookupFails {
        return ListFailed;
      }
      var hit := LoadEntries(json, Lookup(store, key));
      if hit.Some? {
        assert WellNamed(p) && Sound(backend, json, limit, store) ==> SoundDir(backend, json, store, p);
        return hit.value;
      }
      var acquired := AcquireBackend(luck.cancelled);
      if !acquired {
        return ListFailed;
      }
      answer := if luck.backendFails then ListFailed else backend.list(p);
      match answer {
        case ListFailed =>
        case ListNotExist =>
          Put(key, NOT_FOUND, luck.putFails);
          if WellNamed(p) && Sound(backend, json, limit, old(store)) {
            PutDirSound(backend, json, limit, old(store), p, NOT_FOUND);
          }
        case Listed(entries) =>
          var slot := TryAcquireCacheSlot();
          if slot {
            Put(key, KeptEntries(json, entries), luck.putFails);
            cacheSlots := cacheSlots - 1;
            if WellNamed(p) && Trusted() && Sound(backend, json, limit, old(store)) {
              EntriesSound(json, entries);
              PutDirSound(backend, json, limit, old(store), p, KeptEntries(json, entries));
            }
          }
      }
      backendSlots := backendSlots - 1;
    }
  }

  /** The body wrapper: every Close runs the hook, which receives from the semaphore. */
  class CloserWrapper {
    const cache: ProviderCache
    var closes: nat

    constructor (cache: ProviderCache)
      ensures this.cache == cache && closes == 0
    {
      this.cache, closes := cache, 0;
    }

    /** The receive on an empty semaphore would never return. */
    method Close()
      requires cache.Valid() && cache.backendSlots > 0
      modifies this, cache`backendSlots
      ensures cache.Valid() && cache.backendSlots == old(cache.backendSlots) - 1 && closes == old(closes) + 1
    {
      closes := closes + 1;
      cache.backendSlots := cache.backendSlots - 1;
    }
  }
}
