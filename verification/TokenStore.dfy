/** The API server's index of claim tokens: a map from token hash to identity, kept up to date by the
    informer's events, with a scan of the informer's cache behind it for tokens not in the map. */
module TokenStores {
  import opened Wrappers

  // ---- Secrets, events, entries --------------------------------------------------

  datatype Auth = Auth(tenant: string, workload: string, claim: string, scopes: seq<string>)

  /** A token Secret as secretToAuth reads it; raw is None if the token key is missing from its data. */
  datatype TokenSecret = TokenSecret(raw: Option<string>, auth: Auth, expiry: Option<int>)

  datatype Entry = Entry(auth: Auth, expiry: Option<int>)

  /** What the informer tells the handlers.  A tombstone is unwrapped to the Secret last seen. */
  datatype Event = Upserted(secret: TokenSecret) | Removed(secret: TokenSecret)

  type Digest = string

  /** cache is what a List through the cached client reads; pending are the events on their way to the handlers. */
  datatype State = State(cache: map<string, TokenSecret>, pending: seq<Event>, entries: map<Digest, Entry>)

  ghost predicate Injective(hash: string -> Digest) {
    forall a, b :: hash(a) == hash(b) ==> a == b
  }

  function EntryOf(s: TokenSecret): Entry { Entry(s.auth, s.expiry) }

  predicate Expired(e: Entry, now: int) { e.expiry.Some? && now > e.expiry.value }

  predicate Holds(s: TokenSecret, hash: string -> Digest, h: Digest) {
    s.raw.Some? && hash(s.raw.value) == h
  }

  /** onAddOrUpdate and onDelete */
  function Handled(hash: string -> Digest, entries: map<Digest, Entry>, e: Event): map<Digest, Entry> {
    if e.secret.raw.None? then entries
    else if e.Upserted? then entries[hash(e.secret.raw.value) := EntryOf(e.secret)]
    else entries - {hash(e.secret.raw.value)}
  }

  /** The entries once all pending events have been delivered. */
  function Drained(hash: string -> Digest, entries: map<Digest, Entry>, pending: seq<Event>): map<Digest, Entry>
    decreases |pending|
  {
    if pending == [] then entries
    else Handled(hash, Drained(hash, entries, pending[..|pending| - 1]), pending[|pending| - 1])
  }

  // ---- The invariant ------------------------------------------------------------------

  /** The map is exactly the index of these Secrets. */
  ghost predicate Indexes(hash: string -> Digest, m: map<Digest, Entry>, cache: map<string, TokenSecret>) {
    && (forall n :: n in cache && cache[n].raw.Some? ==>
          hash(cache[n].raw.value) in m && m[hash(cache[n].raw.value)] == EntryOf(cache[n]))
    && (forall h :: h in m ==> exists n :: n in cache && Holds(cache[n], hash, h))
  }

  ghost predicate DistinctTokens(cache: map<string, TokenSecret>) {
    forall n, m :: n in cache && m in cache && cache[n].raw.Some? && cache[n].raw == cache[m].raw ==> n == m
  }

  /** An event about a token with this hash. */
  predicate Concerns(e: Event, hash: string -> Digest, h: Digest) { Holds(e.secret, hash, h) }

  ghost predicate Pending(st: State, hash: string -> Digest, h: Digest) {
    exists i :: 0 <= i < |st.pending| && Concerns(st.pending[i], hash, h)
  }

  /** The removal of a token is the last that is heard of it. */
  ghost predicate RemovedLast(st: State) {
    forall i :: 0 <= i < |st.pending| && st.pending[i].Removed? && st.pending[i].secret.raw.Some? ==>
      && (forall j :: i < j < |st.pending| ==> st.pending[j].secret.raw != st.pending[i].secret.raw)
      && (forall n :: n in st.cache ==> st.cache[n].raw != st.pending[i].secret.raw)
  }

  /** Delivering what is pending makes the entries exactly the index of the cache. */
  ghost predicate Sound(st: State, hash: string -> Digest) {
    DistinctTokens(st.cache) && Indexes(hash, Drained(hash, st.entries, st.pending), st.cache)
  }

  // ---- Steps ------------------------------------------------------------------------

  function Upsert(st: State, n: string, s: TokenSecret): State {
    st.(cache := st.cache[n := s], pending := st.pending + [Upserted(s)])
  }

  function Remove(st: State, n: string): State
    requires n in st.cache
  {
    st.(cache := st.cache - {n}, pending := st.pending + [Removed(st.cache[n])])
  }

  function Deliver(st: State, hash: string -> Digest): State
    requires st.pending != []
  {
    st.(pending := st.pending[1..], entries := Handled(hash, st.entries, st.pending[0]))
  }

  /** The insert at the end of a cold lookup. */
  function Insert(st: State, hash: string -> Digest, s: TokenSecret): State
    requires s.raw.Some?
  {
    st.(entries := st.entries[hash(s.raw.value) := EntryOf(s)])
  }

  /** Token bytes never change and are not shared with another Secret, past or present. */
  ghost predicate FreshToken(st: State, n: string, s: TokenSecret) {
    && (n in st.cache ==> st.cache[n].raw == s.raw)
    && (s.raw.Some? ==>
          && (forall m :: m in st.cache && m != n ==> st.cache[m].raw != s.raw)
          && (forall i :: 0 <= i < |st.pending| && st.pending[i].Removed? ==> st.pending[i].secret.raw != s.raw))
  }

  lemma DrainOne(hash: string -> Digest, entries: map<Digest, Entry>, pending: seq<Event>, e: Event)
    ensures Drained(hash, entries, pending + [e]) == Handled(hash, Drained(hash, entries, pending), e)
  {
    assert (pending + [e])[..|pending|] == pending;
  }

  lemma UpsertSound(st: State, hash: string -> Digest, n: string, s: TokenSecret)
    requires Injective(hash) && Sound(st, hash)
    requires n in st.cache ==> st.cache[n].raw == None || st.cache[n].raw == s.raw
    requires s.raw.Some? ==> forall m :: m in st.cache && m != n ==> st.cache[m].raw != s.raw
    ensures Sound(Upsert(st, n, s), hash)
  {
    hide Drained;
    DrainOne(hash, st.entries, st.pending, Upserted(s));
    UpsertIndexes(hash, Drained(hash, st.entries, st.pending), st.cache, n, s);
  }

  lemma UpsertIndexes(hash: string -> Digest, m: map<Digest, Entry>, cache: map<string, TokenSecret>,
                      n: string, s: TokenSecret)
    requires Injective(hash) && Indexes(hash, m, cache)
    requires n in cache ==> cache[n].raw == None || cache[n].raw == s.raw
    requires s.raw.Some? ==> forall k :: k in cache && k != n ==> cache[k].raw != s.raw
    ensures Indexes(hash, Handled(hash, m, Upserted(s)), cache[n := s])
  {
    var m', cache' := Handled(hash, m, Upserted(s)), cache[n := s];
    forall h | h in m'
      ensures exists k :: k in cache' && Holds(cache'[k], hash, h)
    {
      if Holds(s, hash, h) {
        assert Holds(cache'[n], hash, h);
      } else {
        var k :| k in cache && Holds(cache[k], hash, h);
        assert k != n && Holds(cache'[k], hash, h);
      }
    }
  }

  lemma RemoveSound(st: State, hash: string -> Digest, n: string)
    requires Injective(hash) && Sound(st, hash) && n in st.cache
    ensures Sound(Remove(st, n), hash)
  {
    DrainOne(hash, st.entries, st.pending, Removed(st.cache[n]));
    var cache := st.cache - {n};
    var m' := Handled(hash, Drained(hash, st.entries, st.pending), Removed(st.cache[n]));
    forall h | h in m'
      ensures exists k :: k in cache && Holds(cache[k], hash, h)
    {
      var k :| k in st.cache && Holds(st.cache[k], hash, h);
      assert k != n && Holds(cache[k], hash, h);
    }
  }

  lemma {:induction false} DrainFirst(hash: string -> Digest, entries: map<Digest, Entry>, pending: seq<Event>)
    requires pending != []
    ensures Drained(hash, Handled(hash, entries, pending[0]), pending[1..]) == Drained(hash, entries, pending)
    decreases |pending|
  {
    if |pending| > 1 {
      var before := pending[..|pending| - 1];
      DrainFirst(hash, entries, before);
      assert before[1..] == pending[1..][..|pending[1..]| - 1];
    } else {
      assert pending == [pending[0]] && pending[..0] == [];
    }
  }

  lemma DeliverSound(st: State, hash: string -> Digest)
    requires Sound(st, hash) && st.pending != []
    ensures Sound(Deliver(st, hash), hash)
  {
    DrainFirst(hash, st.entries, st.pending);
  }

  // ---- Inserts ------------------------------------------------------------------------

  /** The two maps agree but for this one key. */
  ghost predicate AgreeBut(a: map<Digest, Entry>, b: map<Digest, Entry>, h: Digest) {
    forall g :: g != h ==> (g in a <==> g in b) && (g in a ==> a[g] == b[g])
  }

  ghost predicate AgreeAt(a: map<Digest, Entry>, b: map<Digest, Entry>, h: Digest) {
    (h in a <==> h in b) && (h in a ==> a[h] == b[h])
  }

  lemma HandledForgets(hash: string -> Digest, a: map<Digest, Entry>, b: map<Digest, Entry>, e: Event, h: Digest)
    requires AgreeBut(a, b, h)
    ensures var x, y := Handled(hash, a, e), Handled(hash, b, e);
            && AgreeBut(x, y, h)
            && (if Concerns(e, hash, h) then AgreeAt(x, y, h) else AgreeAt(x, a, h) && AgreeAt(y, b, h))
  {
  }

  /** A pending event decides what becomes of its token, whatever the entries hold now; without one nothing changes. */
  lemma {:induction false} DrainForgets(hash: string -> Digest, a: map<Digest, Entry>, b: map<Digest, Entry>,
                                        pending: seq<Event>, h: Digest)
    requires AgreeBut(a, b, h)
    ensures var x, y := Drained(hash, a, pending), Drained(hash, b, pending);
            && AgreeBut(x, y, h)
            && (if exists i :: 0 <= i < |pending| && Concerns(pending[i], hash, h) then AgreeAt(x, y, h)
                else AgreeAt(x, a, h) && AgreeAt(y, b, h))
    decreases |pending|
  {
    hide Handled, Concerns;
    if pending != [] {
      var before, last := pending[..|pending| - 1], pending[|pending| - 1];
      DrainForgets(hash, a, b, before, h);
      HandledForgets(hash, Drained(hash, a, before), Drained(hash, b, before), last, h);
      if i :| 0 <= i < |before| && Concerns(before[i], hash, h) {
        assert Concerns(pending[i], hash, h);
      }
      if i :| 0 <= i < |pending| && Concerns(pending[i], hash, h) {
        assert i == |before| || Concerns(before[i], hash, h);
      }
    }
  }

  /** A Secret of the cache has this token and reads as this entry. */
  ghost predicate Cached(cache: map<string, TokenSecret>, s: TokenSecret) {
    exists n :: n in cache && cache[n].raw == s.raw && EntryOf(cache[n]) == EntryOf(s)
  }

  /** An insert keeps the invariant if and only if an event about the token is still on its way, or the cache
      holds the token with this very entry. */
  lemma InsertSoundIff(st: State, hash: string -> Digest, s: TokenSecret)
    requires Injective(hash) && Sound(st, hash) && s.raw.Some?
    ensures var h := hash(s.raw.value);
            Sound(Insert(st, hash, s), hash)
            <==> Pending(st, hash, h) || Cached(st.cache, s)
  {
    var h, st' := hash(s.raw.value), Insert(st, hash, s);
    assert AgreeBut(st.entries, st'.entries, h);
    DrainForgets(hash, st.entries, st'.entries, st.pending, h);
    var x, y := Drained(hash, st.entries, st.pending), Drained(hash, st'.entries, st.pending);
    if Pending(st, hash, h) {
      assert x == y;
    } else {
      assert h in y && y[h] == EntryOf(s);
      if n :| n in st.cache && st.cache[n].raw == s.raw && EntryOf(st.cache[n]) == EntryOf(s) {
        assert x == y;
      }
    }
  }

  /** A cold lookup that finds its Secret in the cache at the moment of the insert keeps the invariant. */
  lemma ColdInsertSound(st: State, hash: string -> Digest, n: string)
    requires Injective(hash) && Sound(st, hash) && n in st.cache && st.cache[n].raw.Some?
    ensures Sound(Insert(st, hash, st.cache[n]), hash)
  {
    InsertSoundIff(st, hash, st.cache[n]);
  }

  // ---- Updates that change the token -------------------------------------------------------

  /** An update of a Secret keeps the invariant if and only if it leaves the token bytes alone (or the Secret
      had none): the handlers never take an old token out, so it goes on being accepted. */
  lemma UpdateSoundIff(st: State, hash: string -> Digest, n: string, s: TokenSecret)
    requires Injective(hash) && Sound(st, hash) && n in st.cache
    requires s.raw.Some? ==> forall m :: m in st.cache && m != n ==> st.cache[m].raw != s.raw
    ensures Sound(Upsert(st, n, s), hash) <==> st.cache[n].raw == None || st.cache[n].raw == s.raw
  {
    if st.cache[n].raw == None || st.cache[n].raw == s.raw {
      UpsertSound(st, hash, n, s);
    } else {
      DrainOne(hash, st.entries, st.pending, Upserted(s));
      var h, cache := hash(st.cache[n].raw.value), st.cache[n := s];
      assert h in Handled(hash, Drained(hash, st.entries, st.pending), Upserted(s));
      assert forall k :: k in cache ==> !Holds(cache[k], hash, h);
    }
  }

  // ---- Revoked tokens -----------------------------------------------------------------------

  /** Nothing in the store knows the token any more. */
  ghost predicate Dead(st: State, hash: string -> Digest, t: string) {
    && (forall n :: n in st.cache ==> st.cache[n].raw != Some(t))
    && (forall i :: 0 <= i < |st.pending| ==> st.pending[i].secret.raw != Some(t))
    && hash(t) !in st.entries
  }

  /** Once the removal of a token's Secret has been delivered, the token is dead. */
  lemma RemovalKills(st: State, hash: string -> Digest, t: string)
    requires RemovedLast(st) && st.pending != []
    requires st.pending[0].Removed? && st.pending[0].secret.raw == Some(t)
    ensures Dead(Deliver(st, hash), hash, t)
  {
  }

  /** A lookup that lists before the Secret is deleted and inserts after the deletion was delivered brings the
      token back: it is accepted although no Secret holds it and nothing is pending. */
  lemma SplitLookupResurrects(hash: string -> Digest, n: string, s: TokenSecret) returns (before: State, after: State)
    requires Injective(hash) && s.raw.Some?
    ensures Sound(before, hash) && RemovedLast(before) && n in before.cache && before.cache[n] == s
    ensures hash(s.raw.value) !in before.entries
    ensures var gone := Deliver(Deliver(Remove(before, n), hash), hash);
            Dead(gone, hash, s.raw.value) && after == Insert(gone, hash, s)
    ensures after.cache == map[] && after.pending == [] && hash(s.raw.value) in after.entries
    ensures !Sound(after, hash)
  {
    before := State(map[n := s], [Upserted(s)], map[]);
    assert Drained(hash, map[], []) == map[];
    DrainOne(hash, map[], [], Upserted(s));
    assert [] + [Upserted(s)] == [Upserted(s)];
    assert Holds(before.cache[n], hash, hash(s.raw.value));
    var removed := Remove(before, n);
    assert removed.pending == [Upserted(s), Removed(s)] && removed.cache == map[];
    var once := Deliver(removed, hash);
    assert once.pending == [Removed(s)];
    var gone := Deliver(once, hash);
    after := Insert(gone, hash, s);
  }

  // ---- Accepted tokens ----------------------------------------------------------------------

  lemma {:induction false} NoRemovalKeeps(hash: string -> Digest, entries: map<Digest, Entry>,
                                          pending: seq<Event>, t: string)
    requires Injective(hash) && hash(t) in entries
    requires forall i :: 0 <= i < |pending| ==> !(pending[i].Removed? && pending[i].secret.raw == Some(t))
    ensures hash(t) in Drained(hash, entries, pending)
    decreases |pending|
  {
    if pending != [] {
      NoRemovalKeeps(hash, entries, pending[..|pending| - 1], t);
    }
  }

  /** A token in the entries belongs to a Secret in the cache, or its removal is on its way. */
  lemma EntryMeansLive(st: State, hash: string -> Digest, t: string)
    requires Injective(hash) && Sound(st, hash) && hash(t) in st.entries
    ensures (exists n :: n in st.cache && st.cache[n].raw == Some(t))
            || exists i :: 0 <= i < |st.pending| && st.pending[i].Removed? && st.pending[i].secret.raw == Some(t)
  {
    if forall i :: 0 <= i < |st.pending| ==> !(st.pending[i].Removed? && st.pending[i].secret.raw == Some(t)) {
      NoRemovalKeeps(hash, st.entries, st.pending, t);
      var n :| n in st.cache && Holds(st.cache[n], hash, hash(t));
    }
  }

  /** Once no event about a token is pending, its entry is exactly that of the Secret in the cache. */
  lemma SettledEntry(st: State, hash: string -> Digest, t: string)
    requires Injective(hash) && Sound(st, hash) && !Pending(st, hash, hash(t))
    ensures hash(t) in st.entries <==> exists n :: n in st.cache && st.cache[n].raw == Some(t)
    ensures forall n :: n in st.cache && st.cache[n].raw == Some(t) ==>
              hash(t) in st.entries && st.entries[hash(t)] == EntryOf(st.cache[n])
  {
    DrainForgets(hash, st.entries, st.entries, st.pending, hash(t));
    var m := Drained(hash, st.entries, st.pending);
    if hash(t) in m {
      var n :| n in st.cache && Holds(st.cache[n], hash, hash(t));
      assert st.cache[n].raw == Some(t);
    }
  }

  // ---- The store ----------------------------------------------------------------------------

  class TokenStore {
    const hash: string -> Digest
    /** A List through the cached client never fails. */
    const reliable: bool
    var cache: map<string, TokenSecret>
    var pending: seq<Event>
    var entries: map<Digest, Entry>

    function Now(): State
      reads this
    {
      State(cache, pending, entries)
    }

    ghost predicate Valid()
      reads this
    {
      Injective(hash) && Sound(Now(), hash) && RemovedLast(Now())
    }

    constructor (hash: string -> Digest, reliable: bool)
      requires Injective(hash)
      ensures Valid() && Now() == State(map[], [], map[]) && this.hash == hash && this.reliable == reliable
    {
      this.hash, this.reliable, cache, pending, entries := hash, reliable, map[], [], map[];
      new;
      assert Drained(hash, map[], []) == map[];
    }

    /** The informer's cache takes a new or changed Secret, and the event is queued. */
    method CacheUpserts(n: string, s: TokenSecret)
      requires Valid() && FreshToken(Now(), n, s)
      modifies this
      ensures Valid() && Now() == Upsert(old(Now()), n, s)
      ensures forall t :: Dead(old(Now()), hash, t) && s.raw != Some(t) ==> Dead(Now(), hash, t)
    {
      hide Sound, Injective;
      UpsertSound(Now(), hash, n, s);
      cache, pending := cache[n := s], pending + [Upserted(s)];
    }

    method CacheRemoves(n: string)
      requires Valid() && n in cache
      modifies this
      ensures Valid() && Now() == Remove(old(Now()), n)
      ensures forall t :: Dead(old(Now()), hash, t) ==> Dead(Now(), hash, t)
    {
      hide Indexes, Drained, Injective;
      RemoveSound(Now(), hash, n);
      cache, pending := cache - {n}, pending + [Removed(cache[n])];
    }

    /** The next event reaches its handler. */
    method Dispatch()
      requires Valid() && pending != []
      modifies this
      ensures Valid() && Now() == Deliver(old(Now()), hash)
      ensures forall t :: Dead(old(Now()), hash, t) ==> Dead(Now(), hash, t)
      ensures old(pending)[0].Removed? && old(pending)[0].secret.raw.Some? ==>
                Dead(Now(), hash, old(pending)[0].secret.raw.value)
    {
      DeliverSound(Now(), hash);
      var e := pending[0];
      pending := pending[1..];
      if e.Upserted? {
        OnAddOrUpdate(e.secret);
      } else {
        OnDelete(e.secret);
      }
    }

    method OnAddOrUpdate(s: TokenSecret)
      modifies this`entries
      ensures entries == Handled(hash, old(entries), Upserted(s))
    {
      if s.raw.Some? {
        entries := entries[hash(s.raw.value) := EntryOf(s)];
      }
    }

    method OnDelete(s: TokenSecret)
      modifies this`entries
      ensures entries == Handled(hash, old(entries), Removed(s))
    {
      if s.raw.Some? {
        entries := entries - {hash(s.raw.value)};
      }
    }

    /** Lookup.  With no event about the token pending it answers as the plain scan does, identity included;
        otherwise it accepts it only if a Secret in the cache has it or its removal is pending. */
    method Lookup(token: string, now: int) returns (auth: Option<Auth>)
      requires Valid()
      modifies this
      ensures Valid() && cache == old(cache) && pending == old(pending)
      ensures !Pending(Now(), hash, hash(token)) ==>
                forall a :: auth == Some(a) <==>
                  && token != ""
                  && exists n :: n in cache && cache[n].raw == Some(token) && cache[n].auth == a
                                 && (cache[n].expiry.None? || now <= cache[n].expiry.value)
      ensures auth.Some? ==> hash(token) in entries
      ensures auth.Some? ==>
                || (exists n :: n in cache && cache[n].raw == Some(token))
                || exists i :: 0 <= i < |pending| && pending[i].Removed? && pending[i].secret.raw == Some(token)
      ensures forall t :: Dead(old(Now()), hash, t) ==> Dead(Now(), hash, t) && (t == token ==> auth == None)
    {
      if token == "" {
        auth := None;
      } else if hash(token) in entries {
        var entry := entries[hash(token)];
        EntryMeansLive(Now(), hash, token);
        if !Pending(Now(), hash, hash(token)) {
          SettledEntry(Now(), hash, token);
        }
        auth := if Expired(entry, now) then None else Some(entry.auth);
      } else {
        auth := ColdLookup(token, now);
      }
    }

    /** coldLookup: the first Secret of the List with this token decides. */
    method ColdLookup(token: string, now: int) returns (auth: Option<Auth>)
      requires Valid() && token != "" && hash(token) !in entries
      modifies this
      ensures Valid() && cache == old(cache) && pending == old(pending)
      ensures forall a :: auth == Some(a) ==>
                exists n :: n in cache && cache[n].raw == Some(token) && cache[n].auth == a
                            && (cache[n].expiry.None? || now <= cache[n].expiry.value)
      ensures reliable ==>
                forall n :: n in cache && cache[n].raw == Some(token) ==>
                  (auth == Some(cache[n].auth) <==> cache[n].expiry.None? || now <= cache[n].expiry.value)
      ensures if auth.None? then entries == old(entries)
              else exists n :: && n in cache && cache[n].raw == Some(token)
                               && entries == old(entries)[hash(token) := Entry(cache[n].auth, cache[n].expiry)]
      ensures !Pending(Now(), hash, hash(token)) ==>
                auth == None && !exists n :: n in cache && cache[n].raw == Some(token)
      ensures forall t :: Dead(old(Now()), hash, t) ==> Dead(Now(), hash, t) && (t == token ==> auth == None)
    {
      auth := None;
      if !Pending(Now(), hash, hash(token)) {
        SettledEntry(Now(), hash, token);
      }
      var failed := *;
      if !failed || reliable {
        var found := Find(token);
        if found.Some? {
          var s := cache[found.value];
          if !Expired(EntryOf(s), now) {
            ColdInsertSound(Now(), hash, found.value);
            entries := entries[hash(token) := EntryOf(s)];
            auth := Some(s.auth);
          }
        }
      }
    }

    /** The loop over the List. */
    method Find(token: string) returns (found: Option<string>)
      ensures found.Some? ==> found.value in cache && cache[found.value].raw == Some(token)
      ensures found.None? ==> forall n :: n in cache ==> cache[n].raw != Some(token)
    {
      found := None;
      var rest := cache.Keys;
      while rest != {} && found.None?
        invariant rest <= cache.Keys
        invariant found.Some? ==> found.value in cache && cache[found.value].raw == Some(token)
        invariant found.None? ==> forall n :: n in cache && n !in rest ==> cache[n].raw != Some(token)
        decreases |rest|
      {
        var n :| n in rest;
        rest := rest - {n};
        if cache[n].raw == Some(token) {
          found := Some(n);
        }
      }
    }
  }
}
